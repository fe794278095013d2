/** Entities of a uSWIM node as values: what the C structs of include/microswim.h hold. */
module Types {

  datatype Option<+T> = None | Some(value: T)

  /** A node identifier; the blank one stands for a peer known only by its address. */
  type Uuid = string

  const BLANK: Uuid := ""

  datatype Addr = Addr(family: nat, port: nat, ip: nat)

  /** What a zeroed `struct sockaddr_in` holds; no peer has it. */
  const NO_ADDR: Addr := Addr(0, 0, 0)

  datatype Status = Alive | Suspect | Confirmed

  /** The part of a member that travels in messages. */
  datatype Entry = Entry(uuid: Uuid, addr: Addr, status: Status, incarnation: nat)

  const ZERO_ENTRY: Entry := Entry(BLANK, NO_ADDR, Alive, 0)

  datatype Member = Member(entry: Entry, timeout: nat)

  /** A `microswim_member_t*`: a slot of the live array or of the confirmed array. */
  datatype Ref = Live(slot: nat) | Conf(slot: nat)

  datatype Update = Update(ref: Ref, count: nat)

  /** Pings and ping-reqs only ever point into the live array, so a slot number is enough. */
  datatype Ping = Ping(slot: nat, pingReqDeadline: nat, suspectDeadline: nat, pingReq: bool)

  datatype PingReq = PingReq(target: nat, source: nat, timeout: nat)

  datatype Kind =
    | PingMessage
    | PingReqMessage
    | AckMessage
    | AliveMessage
    | SuspectMessage
    | ConfirmMessage
    | EventMessage
    | UnknownMessage
    | MalformedMessage

  datatype Message = Message(kind: Kind, sender: Entry, updates: seq<Entry>)

  datatype Packet = Packet(to: Addr, message: Message)

  /** The build-time configuration; periods are in milliseconds. */
  datatype Config = Config(
    maxMembers: nat,
    maxUpdates: nat,
    maxPings: nat,
    perMessage: nat,
    group: nat,
    fanout: nat,
    suspectMs: nat,
    protocolMs: nat,
    pingReqMs: nat)

  /**
   * The outside world as streams: the k-th call of `rand` answers rand(k) and the k-th reading
   * of the clock answers clock(k). `pick(k, n)` is the outcome of choosing helpers for an
   * indirect ping among n live members when k random numbers have been drawn.
   */
  datatype Env = Env(cfg: Config, rand: nat -> nat, clock: nat -> nat, pick: (nat, nat) -> seq<nat>)

  ghost predicate Distinct<T>(xs: seq<T>) {
    forall i, j :: 0 <= i < j < |xs| ==> xs[i] != xs[j]
  }

  /** Helper choices: distinct slots above 0 and below the live count, as many as can be had. */
  ghost predicate PickOk(c: seq<nat>, n: nat, group: nat) {
    && Distinct(c)
    && (forall i :: 0 <= i < |c| ==> 1 <= c[i] < n)
    && |c| == (if n == 0 then 0 else if n - 1 < group then n - 1 else group)
  }

  ghost predicate EnvOk(env: Env) {
    forall k: nat, n: nat :: PickOk(env.pick(k, n), n, env.cfg.group)
  }

  ghost predicate MonotoneClock(env: Env) {
    forall i: nat, j: nat :: i <= j ==> env.clock(i) <= env.clock(j)
  }

  /** `size_t` arithmetic: adding one wraps. */
  const SIZE_MOD: nat := 0x1_0000_0000_0000_0000

  function Succ(i: nat): nat {
    (i + 1) % SIZE_MOD
  }

  /**
   * One node (`microswim_t`). `members` and `indices` are the whole arrays, because the code
   * reads slots past the live count; the other arrays are their used prefixes. `draws` and
   * `ticks` count the calls to `rand` and to the clock, `outbox` is everything ever sent, and
   * `incs` every value `self.incarnation` ever had.
   */
  datatype NodeState = NodeState(
    self: Entry,
    members: seq<Member>,
    mc: nat,
    confirmed: seq<Member>,
    updates: seq<Update>,
    pings: seq<Ping>,
    pingReqs: seq<PingReq>,
    indices: seq<nat>,
    rr: nat,
    draws: nat,
    ticks: nat,
    outbox: seq<Packet>,
    incs: set<nat>)

  predicate Shaped(s: NodeState) {
    s.mc <= |s.members| == |s.indices|
  }

  type State = s: NodeState | Shaped(s)
    witness NodeState(ZERO_ENTRY, [], 0, [], [], [], [], [], 0, 0, 0, [], {})
}
