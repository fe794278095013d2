/** A probe and its answer across the network: from one node to another and back again. */
module Exchange {
  import opened Types
  import opened Tables
  import opened Protocol
  import opened Invariant
  import opened Preservation
  import opened RoundRobin
  import opened Views
  import opened OwnIncarnation
  import opened Network
  import opened Marks
  import opened Replies
  import opened Probing
  import opened Hearing
  import opened Outstanding
  import opened Accuracy

  /** Node u has sent this packet in its turn from g to h. */
  ghost predicate SentNow(g: Net, h: Net, u: Uuid, p: Packet) {
    && u in g && u in h && g[u].outbox <= h[u].outbox
    && exists x :: |g[u].outbox| <= x < |h[u].outbox| && h[u].outbox[x] == p
  }

  lemma SentNowInFlight(g: Net, h: Net, u: Uuid, p: Packet)
    requires SentNow(g, h, u, p)
    ensures InFlight(h, p.message)
  {
  }

  /** A message in our own name carries our uuid and our address of the book. */
  ghost predicate InNameOf(c: Setup, u: Uuid, m: Message) {
    u in c.book && m.sender.uuid == u && m.sender.addr == c.book[u]
  }

  lemma SelfInBook(c: Setup, g: Net, u: Uuid)
    requires SetupOk(c) && NetInv(c, g) && u in g
    ensures u in c.book && g[u].self.uuid == u && g[u].self.addr == c.book[u] && u != BLANK
  {
    hide Core, Ring, StatusOk, NetInv, SetupOk;
    NodeParts(c, g, u);
    Parts(g[u], Issued(c, g));
  }

  lemma SlotInBook(c: Setup, g: Net, u: Uuid, x: nat)
    requires SetupOk(c) && NetInv(c, g) && u in g && x < |g[u].members| && g[u].members[x].entry.uuid != BLANK
    ensures var e := g[u].members[x].entry; e.uuid in c.book && e.addr == c.book[e.uuid]
  {
    hide Core, Ring, StatusOk, NetInv, SetupOk;
    NodeParts(c, g, u);
    Parts(g[u], Issued(c, g));
  }

  // ----- the probe -----

  /** Whoever of the book the detector retrieves is sent a ping, at its own address, in the name of the node. */
  lemma ProbeIsSent(c: Setup, g: Net, u: Uuid, v: Uuid, x: nat) returns (p: Packet)
    requires SetupOk(c) && NetInv(c, g) && u in g && v in c.book && u in c.envs
    requires x in RetrieveN(c.envs[u], g[u], c.envs[u].cfg.fanout).1
    requires x < |g[u].members| && g[u].members[x].entry.uuid == v
    ensures SentNow(g, Next(c, g, Turn(u, Detecting)), u, p)
    ensures p.to == c.book[v] && p.message.kind == PingMessage && InNameOf(c, u, p.message)
  {
    hide Inv, NetInv, SetupOk, Detect, RetrieveN;
    var env, s := c.envs[u], g[u];
    var xs := RetrieveN(env, s, env.cfg.fanout).1;
    var t := Step(env, s, Detecting);
    DetectSends(env, s, env.cfg.fanout);
    SelfInBook(c, g, u);
    NamesAreNotBlank(c, v);
    SlotInBook(c, g, u, x);
    var y :| 0 <= y < |xs| && xs[y] == x;
    p := Posted(s, t)[y];
    assert t.outbox[|s.outbox| + y] == p;
  }

  lemma NamesAreNotBlank(c: Setup, v: Uuid)
    requires SetupOk(c) && v in c.book
    ensures v != BLANK
  {
  }

  // ----- the answer -----

  /** Whoever takes in a ping answers it, at the address it came from, in its own name. */
  lemma PingIsAnswered(c: Setup, g: Net, v: Uuid, m: Message) returns (q: Packet)
    requires SetupOk(c) && NetInv(c, g) && v in g && v in c.envs && InFlight(g, m) && m.kind == PingMessage
    ensures SentNow(g, Next(c, g, Turn(v, Listening(Some(m)))), v, q)
    ensures q.to == m.sender.addr && q.message.kind == AckMessage && InNameOf(c, v, q.message)
  {
    hide Core, Ring, StatusOk, NetInv, SetupOk, Issued, MessageTo, Swept, Extract, PingHandle, Gossip, BookOk, RoomFor;
    var env, s, k := c.envs[v], g[v], Issued(c, g);
    NodeParts(c, g, v);
    IssuedBook(c, g);
    InFlightOk(c, g, v, m);
    SelfInBook(c, g, v);
    var s1 := Swept(env, s);
    SweepsDoubt(env, s, k, v);
    SweptAcceptable(env, s, k, m);
    ExtractKeeps(env, s1, k, m);
    var s2 := Extract(env, s1, m);
    PingAnswered(env, s2, k, m);
    var t := Step(env, s, Listening(Some(m)));
    PingStepIs(env, s, m);
    q := Posted(s2, t)[0];
    SweptGrows(env, s);
    assert t.outbox[|s2.outbox|] == q;
  }

  lemma PingStepIs(env: Env, s: State, m: Message)
    requires m.kind == PingMessage
    ensures Step(env, s, Listening(Some(m))) == PingHandle(env, Extract(env, Swept(env, s), m), m)
  {
    hide Swept, PingHandle, Extract;
    ListenIs(env, s, Some(m));
    StepListens(env, s, Some(m));
  }

  // ----- the answer comes home -----

  /** A node that still waits for v takes v's answer in, in time and without other news of v: it waits no more. */
  lemma AnswerIsTaken(c: Setup, g: Net, u: Uuid, m: Message, v: Uuid)
    requires SetupOk(c) && NetInv(c, g) && u in g && u in c.envs && v in c.book && InFlight(g, m)
    requires m.kind == AckMessage && m.sender.uuid == v && SaysAlive([m.sender] + m.updates, v)
    requires ViewOf(g[u], v).Living? && !Expired(g[u], v, SweepTime(c.envs[u], g[u])) && PingsTo(g[u], v) <= 1
    requires |Next(c, g, Turn(u, Listening(Some(m))))[u].confirmed| == |g[u].confirmed|
    ensures var h := Next(c, g, Turn(u, Listening(Some(m)))); ViewOf(h[u], v).Living? && PingsTo(h[u], v) == 0
  {
    hide Inv, NetInv, SetupOk, Issued, MessageTo, Listen, ViewOf, Expired, PingsTo, Quieter, BookOk, RoomFor, SaysAlive;
    var env, s, k, e := c.envs[u], g[u], Issued(c, g), Listening(Some(m));
    NodeParts(c, g, u);
    IssuedBook(c, g);
    InFlightOk(c, g, u, m);
    NamesAreNotBlank(c, v);
    StepListens(env, s, Some(m));
    TakenInIs(e);
    StepSpares(env, s, k, e, v);
    ListenQuieter(env, s, k, Some(m), v);
  }

  /** In its third turn u takes the answer in before its sweep finds the ping expired, and nobody is confirmed. */
  ghost predicate TakenInTime(c: Setup, g: Net, u: Uuid, v: Uuid, m: Message)
    requires u in g && u in c.envs
  {
    && !Expired(g[u], v, SweepTime(c.envs[u], g[u]))
    && SaysAlive([m.sender] + m.updates, v)
    && |Next(c, g, Turn(u, Listening(Some(m))))[u].confirmed| == |g[u].confirmed|
  }

  /**
   * The round trip of a probe. u retrieves v in a turn of its detector: a ping p goes to v's address. v takes p in: an
   * acknowledgement q goes to u's address. u takes q in: v is alive to u, and u waits for v no more.
   */
  lemma RoundTripOfProbe(c: Setup, g: Net, u: Uuid, v: Uuid, x: nat) returns (p: Packet, q: Packet)
    requires SetupOk(c) && NetInv(c, g) && u in g && v in g && u in c.envs && v in c.envs && u != v
    requires x in RetrieveN(c.envs[u], g[u], c.envs[u].cfg.fanout).1
    requires x < |g[u].members| && g[u].members[x].entry.uuid == v
    requires MonotoneClock(c.envs[u]) && ViewOf(g[u], v).Living? && PingsTo(g[u], v) <= 1
    ensures v in c.book && u in c.book
    ensures var g1 := Next(c, g, Turn(u, Detecting));
      var g2 := Next(c, g1, Turn(v, Listening(Some(p.message))));
      var g3 := Next(c, g2, Turn(u, Listening(Some(q.message))));
      && SentNow(g, g1, u, p) && p.to == c.book[v] && p.message.kind == PingMessage
      && SentNow(g1, g2, v, q) && q.to == c.book[u] && q.message.kind == AckMessage
      && (TakenInTime(c, g2, u, v, q.message) ==> ViewOf(g3[u], v).Living? && PingsTo(g3[u], v) == 0)
  {
    hide Inv, NetInv, SetupOk, Step, ViewOf, PingsTo, SaysAlive, Expired, RetrieveN, MonotoneClock, Possible;
    SelfInBook(c, g, u);
    SelfInBook(c, g, v);
    var g1 := Next(c, g, Turn(u, Detecting));
    p := ProbeIsSent(c, g, u, v, x);
    TurnIsPossible(c, g, u, Detecting);
    NextKeeps(c, g, Turn(u, Detecting));
    DetectorSees(c.envs[u], g[u], v);
    DetectingCounts(c.envs[u], g[u], v);
    SentNowInFlight(g, g1, u, p);
    var g2 := Next(c, g1, Turn(v, Listening(Some(p.message))));
    q := PingIsAnswered(c, g1, v, p.message);
    TurnIsPossible(c, g1, v, Listening(Some(p.message)));
    NextKeeps(c, g1, Turn(v, Listening(Some(p.message))));
    SentNowInFlight(g1, g2, v, q);
    assert g2[u] == g1[u];
    if TakenInTime(c, g2, u, v, q.message) { AnswerIsTaken(c, g2, u, q.message, v); }
  }

  lemma TurnIsPossible(c: Setup, g: Net, u: Uuid, e: Event)
    requires u in g && u in c.envs && (e.Listening? && e.received.Some? ==> InFlight(g, e.received.value))
    ensures Possible(c, g, Turn(u, e))
  {
  }

  lemma DetectingCounts(env: Env, s: State, u: Uuid)
    requires MonotoneClock(env) && u != BLANK && PingsTo(s, u) <= 1
    ensures PingsTo(Step(env, s, Detecting), u) <= 1
  {
    hide Detect, PingsTo;
    DetectCounts(env, s, env.cfg.fanout, u);
  }
}
