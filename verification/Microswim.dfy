/** The node as the C struct `microswim_t`: arrays, counters, and one value that describes them all. */
module Node {
  import opened Types
  import opened Tables
  import opened Protocol
  import opened Invariant

  class Microswim {
    const env: Env
    const members: array<Member>
    const confirmed: array<Member>
    const updates: array<Update>
    const pings: array<Ping>
    const pingReqs: array<PingReq>
    const indices: array<nat>

    var self: Entry
    var memberCount: nat
    var confirmedCount: nat
    var updateCount: nat
    var pingCount: nat
    var pingReqCount: nat
    var roundRobinIndex: nat

    // Position in the streams of random numbers and clock readings, and everything sent.
    var draws: nat
    var ticks: nat
    var outbox: seq<Packet>
    ghost var incs: set<nat>

    /** Array sizes follow the configuration and no count exceeds its array. */
    ghost predicate Fits()
      reads this
    {
      && members.Length == confirmed.Length == pings.Length == pingReqs.Length == indices.Length
      && members.Length == env.cfg.maxMembers
      && updates.Length == env.cfg.maxUpdates
      && env.cfg.maxPings <= pingReqs.Length
      && members != confirmed
      && memberCount <= members.Length
      && confirmedCount <= confirmed.Length
      && updateCount <= updates.Length
      && pingCount <= pings.Length
      && pingReqCount <= pingReqs.Length
    }

    ghost function Value(): State
      requires Fits()
      reads this, members, confirmed, updates, pings, pingReqs, indices
    {
      NodeState(self, members[..], memberCount, confirmed[..confirmedCount], updates[..updateCount],
                pings[..pingCount], pingReqs[..pingReqCount], indices[..], roundRobinIndex,
                draws, ticks, outbox, incs)
    }

    predicate InRange(r: Ref) {
      match r
      case Live(i) => i < members.Length
      case Conf(i) => i < confirmed.Length
    }

    /** What a member pointer points at. */
    function Target(r: Ref): Member
      requires InRange(r)
      reads members, confirmed
    {
      match r
      case Live(i) => members[i]
      case Conf(i) => confirmed[i]
    }

    /** Every update in use points at an array slot. */
    ghost predicate Pointing()
      requires Fits()
      reads this, updates
    {
      forall x :: 0 <= x < updateCount ==> InRange(updates[x].ref)
    }

    lemma TargetIsDeref(r: Ref)
      requires Fits() && RefOk(r, memberCount, confirmedCount)
      ensures Target(r) == Deref(Value(), r)
    {
    }

    /** The node is in a consistent state with respect to an address book it has room for. */
    ghost predicate Valid(k: Knowledge)
      reads this, members, confirmed, updates, pings, pingReqs, indices
    {
      Fits() && Inv(Value(), k) && BookOk(k) && RoomFor(env, k)
    }

    /** A zeroed node that knows who it is. */
    constructor (env: Env, uuid: Uuid, addr: Addr)
      requires env.cfg.maxPings <= env.cfg.maxMembers
      ensures Fits() && this.env == env
      ensures fresh(members) && fresh(confirmed) && fresh(updates) && fresh(pings) && fresh(pingReqs) && fresh(indices)
      ensures Value() == Blanked(env, uuid, addr)
    {
      this.env := env;
      var n := env.cfg.maxMembers;
      members := new Member[n](_ => ZERO_MEMBER);
      confirmed := new Member[n](_ => ZERO_MEMBER);
      updates := new Update[env.cfg.maxUpdates](_ => Update(Live(0), 0));
      pings := new Ping[n](_ => Ping(0, 0, 0, false));
      pingReqs := new PingReq[n](_ => PingReq(0, 0, 0));
      indices := new nat[n](_ => 0);
      self := Entry(uuid, addr, Alive, 0);
      memberCount, confirmedCount, updateCount, pingCount, pingReqCount := 0, 0, 0, 0, 0;
      roundRobinIndex, draws, ticks := 0, 0, 0;
      outbox, incs := [], {0};
    }

    /** `rand() % n` */
    method RandBelow(n: nat) returns (r: nat)
      requires Fits() && n > 0
      modifies this`draws
      ensures Fits() && r < n && r == env.rand(old(draws)) % n && draws == old(draws) + 1
    {
      r := env.rand(draws) % n;
      draws := draws + 1;
    }

    method Milliseconds() returns (now: nat)
      requires Fits()
      modifies this`ticks
      ensures Fits() && now == env.clock(old(ticks)) && ticks == old(ticks) + 1
    {
      now := env.clock(ticks);
      ticks := ticks + 1;
    }

    method MessageSend(to: Addr, m: Message)
      requires Fits()
      modifies this`outbox
      ensures Fits() && Value() == Send(old(Value()), to, m)
    {
      outbox := outbox + [Packet(to, m)];
    }
  }
}
