/**
 * The tables of a node and their primitive operations, as functions on the state:
 * the index ring (src/microswim.c), gossip updates (src/update.c), pings (src/ping.c) and
 * indirect pings (src/ping_req.c).
 */
module Tables {
  import opened Types
  import opened Seqs

  // ----- slots -----

  const ZERO_MEMBER: Member := Member(ZERO_ENTRY, 0)

  function Slot(s: State, i: nat): Member {
    if i < |s.members| then s.members[i] else ZERO_MEMBER
  }

  function SetSlot(s: State, i: nat, m: Member): State {
    if i < |s.members| then s.(members := s.members[i := m]) else s
  }

  function Deref(s: State, r: Ref): Member {
    match r
    case Live(i) => Slot(s, i)
    case Conf(i) => if i < |s.confirmed| then s.confirmed[i] else ZERO_MEMBER
  }

  function Lives(s: State): seq<Member> {
    s.members[..s.mc]
  }

  /**
   * What no operation ever takes back: who the node is, the confirmed members (position and
   * contents), the incarnations it issued, what it sent, and the time it read.
   */
  ghost predicate Grows(s: State, t: State) {
    && t.self.uuid == s.self.uuid && t.self.addr == s.self.addr
    && |t.members| == |s.members|
    && s.confirmed <= t.confirmed
    && s.incs <= t.incs
    && s.outbox <= t.outbox
    && s.ticks <= t.ticks
  }

  function HasUuid(u: Uuid): Member -> bool {
    (m: Member) => m.entry.uuid == u
  }

  function Now(env: Env, s: State): nat {
    env.clock(s.ticks)
  }

  // ----- the index ring -----

  /** Fisher-Yates from position i down to 1; each step draws one number. */
  function Shuffle(rand: nat -> nat, xs: seq<nat>, i: nat, draws: nat): (r: (seq<nat>, nat))
    requires i < |xs| || i == 0
    ensures |r.0| == |xs|
    decreases i
  {
    if i == 0 then (xs, draws)
    else
      var j := rand(draws) % (i + 1);
      Shuffle(rand, xs[i := xs[j]][j := xs[i]], i - 1, draws + 1)
  }

  /** Consume the ring position under the cursor; reshuffle when the cursor comes round. */
  function Advance(env: Env, s: State): (r: (State, nat))
    requires s.mc > 0
    ensures r.0 == s.(indices := r.0.indices, rr := r.0.rr, draws := r.0.draws)
    ensures r.0.rr < s.mc
  {
    var slot := if s.rr < |s.indices| then s.indices[s.rr] else 0;
    var rr := (s.rr + 1) % s.mc;
    if rr == 0 then
      var (xs, d) := Shuffle(env.rand, s.indices, s.mc - 1, s.draws);
      (s.(rr := rr, indices := xs, draws := d), slot)
    else
      (s.(rr := rr), slot)
  }

  predicate IsSelf(s: State, i: nat) {
    Slot(s, i).entry.uuid == s.self.uuid
  }

  /** The round-robin search, cut off after `fuel` ring positions. */
  function RetrieveFrom(env: Env, s: State, origin: nat, fuel: nat): (r: (State, Option<nat>))
    requires s.mc > 0
    ensures r.0 == s.(indices := r.0.indices, rr := r.0.rr, draws := r.0.draws)
    ensures r.1.Some? ==> !IsSelf(s, r.1.value)
    ensures fuel > 0 ==> r.0.rr < s.mc
    decreases fuel, origin
  {
    if fuel == 0 then (s, None)
    else
      var (s1, slot) := Advance(env, s);
      if !IsSelf(s, slot) then (s1, Some(slot))
      else if s1.rr == origin then (s1, None)
      else RetrieveFrom(env, s1, origin, fuel - 1)
  }

  /** Three positions always suffice (RoundRobin.ThreePositionsSuffice). */
  function Retrieve(env: Env, s: State): (r: (State, Option<nat>))
    ensures r.0 == s.(indices := r.0.indices, rr := r.0.rr, draws := r.0.draws)
    ensures r.1.Some? ==> !IsSelf(s, r.1.value)
  {
    if s.mc == 0 then (s, None) else RetrieveFrom(env, s, s.rr, 3)
  }

  /** Slip the newest live slot into the ring at a random position. */
  function IndexAdd(env: Env, s: State): (r: State)
    ensures r == s.(indices := r.indices, draws := r.draws)
  {
    if s.mc == 0 then s
    else
      var p := env.rand(s.draws) % s.mc;
      s.(indices := s.indices[..p] + [s.mc - 1] + s.indices[p..s.mc - 1] + s.indices[s.mc..],
         draws := s.draws + 1)
  }

  /** Where the highest of the first n > 0 entries stands (the first such place). */
  function MaxPos(xs: seq<nat>, n: nat): (p: nat)
    requires 0 < n <= |xs|
    ensures p < n
    ensures forall i :: 0 <= i < n ==> xs[i] <= xs[p]
    ensures forall i :: 0 <= i < p ==> xs[i] < xs[p]
  {
    if n == 1 then 0
    else
      var p := MaxPos(xs, n - 1);
      if xs[n - 1] > xs[p] then n - 1 else p
  }

  /** After the live count fell by one: drop the highest of the first mc + 1 ring entries. */
  function IndexRemove(s: State): State {
    if s.mc + 1 > |s.indices| then s
    else s.(indices := ShiftDown(s.indices, MaxPos(s.indices, s.mc + 1), s.mc + 1))
  }

  // ----- gossip updates -----

  function UpdateAdd(cfg: Config, s: State, r: Ref): State {
    if |s.updates| < cfg.maxUpdates then s.(updates := s.updates + [Update(r, 0)]) else s
  }

  /** Insert by count, after the entries that are used no more often. */
  function Insert(us: seq<Update>, key: Update): seq<Update> {
    if us == [] || us[|us| - 1].count <= key.count then us + [key]
    else Insert(us[..|us| - 1], key) + [us[|us| - 1]]
  }

  function SortByCount(us: seq<Update>): (r: seq<Update>) {
    if us == [] then [] else Insert(SortByCount(us[..|us| - 1]), us[|us| - 1])
  }

  function Blank(s: State, r: Ref): bool {
    Deref(s, r).entry.uuid == BLANK
  }

  /** One more use for each non-blank update among the first k. */
  function Used(s: State, us: seq<Update>, k: nat): (r: seq<Update>)
    ensures |r| == |us|
    ensures forall i :: 0 <= i < |us| ==>
      r[i] == if i < k && !Blank(s, us[i].ref) then us[i].(count := us[i].count + 1) else us[i]
  {
    if us == [] then []
    else
      var u := us[|us| - 1];
      Used(s, us[..|us| - 1], k) + [if |us| <= k && !Blank(s, u.ref) then u.(count := u.count + 1) else u]
  }

  /** The non-blank members that us point at. */
  function Choose(s: State, us: seq<Update>): (r: seq<Ref>)
    ensures forall x :: 0 <= x < |r| ==> !Blank(s, r[x]) && exists i :: 0 <= i < |us| && r[x] == us[i].ref
  {
    if us == [] then []
    else
      var u := us[|us| - 1];
      var r := Choose(s, us[..|us| - 1]);
      if Blank(s, u.ref) then r else r + [u.ref]
  }

  /** Sort, take the least used non-blank updates, and count the use. */
  function UpdatesRetrieve(cfg: Config, s: State): (r: (State, seq<Ref>))
    ensures r.0 == s.(updates := r.0.updates)
  {
    var us := SortByCount(s.updates);
    var k := if cfg.perMessage < |us| then cfg.perMessage else |us|;
    (s.(updates := Used(s, us, k)), Choose(s, us[..k]))
  }

  function Entries(s: State, rs: seq<Ref>): (r: seq<Entry>)
    ensures |r| == |rs|
    ensures forall x :: 0 <= x < |r| ==> r[x] == Deref(s, rs[x]).entry
  {
    if rs == [] then [] else Entries(s, rs[..|rs| - 1]) + [Deref(s, rs[|rs| - 1]).entry]
  }

  /** A message about the least used updates. */
  function Gossip(cfg: Config, s: State, kind: Kind): (r: (State, Message))
    ensures r.0 == s.(updates := r.0.updates)
    ensures r.1.kind == kind && r.1.sender == s.self
  {
    var (s1, rs) := UpdatesRetrieve(cfg, s);
    (s1, Message(kind, s.self, Entries(s1, rs)))
  }

  // ----- pings -----

  function Targets(s: State, u: Uuid): Ping -> bool {
    (p: Ping) => Slot(s, p.slot).entry.uuid == u
  }

  function PingFind(s: State, u: Uuid): Option<nat> {
    First(s.pings, Targets(s, u))
  }

  /** Forget the first ping whose target carries this uuid, if any. */
  function DropPing(s: State, u: Uuid): (r: State)
    ensures r == s.(pings := r.pings)
    ensures forall p :: p in r.pings ==> p in s.pings
    ensures |r.pings| <= |s.pings|
  {
    var p := PingFind(s, u);
    if p.Some? then s.(pings := RemoveAt(s.pings, p.value)) else s
  }

  /** Besides the guard, an array that is full: there the code would write beyond it. */
  function PingAdd(env: Env, s: State, slot: nat): (r: State)
    ensures r == s.(pings := r.pings, ticks := r.ticks) && s.ticks <= r.ticks
  {
    var u := Slot(s, slot).entry.uuid;
    var s1 := DropPing(s, u);
    if u == BLANK || |s1.pings| > env.cfg.maxPings || |s1.pings| >= |s.members| then s1
    else
      var p := Ping(slot, env.clock(s.ticks) + env.cfg.pingReqMs, env.clock(s.ticks + 1) + env.cfg.protocolMs, false);
      s1.(pings := s1.pings + [p], ticks := s.ticks + 2)
  }

  // ----- indirect pings -----

  function Links(s: State, source: Uuid, target: Uuid): PingReq -> bool {
    (p: PingReq) => Slot(s, p.source).entry.uuid == source && Slot(s, p.target).entry.uuid == target
  }

  function DropPingReq(s: State, source: Uuid, target: Uuid): (r: State)
    ensures r == s.(pingReqs := r.pingReqs)
    ensures forall p :: p in r.pingReqs ==> p in s.pingReqs
  {
    var p := First(s.pingReqs, Links(s, source, target));
    if p.Some? then s.(pingReqs := RemoveAt(s.pingReqs, p.value)) else s
  }

  function PingReqAdd(env: Env, s: State, source: nat, target: nat): (r: State)
    ensures r == s.(pingReqs := r.pingReqs, ticks := r.ticks) && s.ticks <= r.ticks
  {
    var su := Slot(s, source).entry.uuid;
    var tu := Slot(s, target).entry.uuid;
    var s1 := DropPingReq(s, su, tu);
    if su == BLANK || tu == BLANK || |s1.pingReqs| >= env.cfg.maxPings then s1
    else
      s1.(pingReqs := s1.pingReqs + [PingReq(target, source, Now(env, s) + env.cfg.protocolMs)],
          ticks := s.ticks + 1)
  }

  /** The sweep over indirect pings: one clock reading each; a removal skips the next element. */
  function PingReqsFrom(env: Env, s: State, i: nat): (r: State)
    ensures r == s.(pingReqs := r.pingReqs, ticks := r.ticks) && s.ticks <= r.ticks
    ensures forall p :: p in r.pingReqs ==> p in s.pingReqs
    decreases |s.pingReqs| - i
  {
    if i >= |s.pingReqs| then s
    else
      var t := s.(ticks := s.ticks + 1);
      if s.pingReqs[i].timeout < Now(env, s)
      then PingReqsFrom(env, t.(pingReqs := RemoveAt(s.pingReqs, i)), i + 1)
      else PingReqsFrom(env, t, i + 1)
  }

  // ----- sending -----

  function Send(s: State, to: Addr, m: Message): State {
    s.(outbox := s.outbox + [Packet(to, m)])
  }
}
