/**
 * The membership protocol of a node as functions on its state: src/member.c, src/message.c and
 * the sweeps of src/ping.c and src/ping_req.c, in the order in which the C code acts.
 */
module Protocol {
  import opened Types
  import opened Seqs
  import opened Tables

  // ----- outgoing status messages -----

  /** Tell the next member of the ring about one entry. */
  function Announce(env: Env, s: State, kind: Kind, e: Entry): (r: State)
    ensures r == s.(indices := r.indices, rr := r.rr, draws := r.draws, outbox := r.outbox)
  {
    var (s1, to) := Retrieve(env, s);
    if to.Some? then Send(s1, Slot(s1, to.value).entry.addr, Message(kind, s.self, [e])) else s1
  }

  function Deadline(env: Env, s: State): nat {
    Now(env, s) + env.cfg.suspectMs
  }

  /** Overwrite status and incarnation of a slot and restart its suspicion timer. */
  function Restamp(env: Env, s: State, i: nat, status: Status, incarnation: nat): (r: State)
    ensures Grows(s, r)
  {
    var e := Slot(s, i).entry.(status := status, incarnation := incarnation);
    SetSlot(s, i, Member(e, Deadline(env, s))).(ticks := s.ticks + 1)
  }

  function MarkAlive(env: Env, s: State, i: nat): (r: State)
    ensures Grows(s, r)
  {
    var e := Slot(s, i).entry;
    var s1 := Restamp(env, s, i, Alive, e.incarnation);
    if e.status == Suspect then Announce(env, s1, AliveMessage, Slot(s1, i).entry) else s1
  }

  function MarkSuspect(env: Env, s: State, i: nat): (r: State)
    ensures Grows(s, r)
  {
    var e := Slot(s, i).entry;
    if e.status == Alive then
      var s1 := Restamp(env, s, i, Suspect, e.incarnation);
      Announce(env, s1, SuspectMessage, Slot(s1, i).entry)
    else s
  }

  // ----- confirming a member -----

  /** Where a member pointer stands after live slot k moved to confirmed slot c. */
  function Rebase(r: Ref, k: nat, c: nat): Ref {
    match r
    case Live(i) => if i == k then Conf(c) else if i > k then Live(i - 1) else r
    case Conf(_) => r
  }

  function RebaseAll(us: seq<Update>, k: nat, c: nat): (r: seq<Update>)
    ensures |r| == |us|
    ensures forall i :: 0 <= i < |us| ==> r[i] == us[i].(ref := Rebase(us[i].ref, k, c))
  {
    if us == [] then []
    else RebaseAll(us[..|us| - 1], k, c) + [us[|us| - 1].(ref := Rebase(us[|us| - 1].ref, k, c))]
  }

  /** Move live slot k behind the confirmed members; only update pointers follow the shift. */
  function Move(s: State, k: nat): (r: State)
    ensures Grows(s, r)
  {
    if k >= s.mc then s
    else
      var s1 := DropPing(s, s.members[k].entry.uuid);
      s1.(confirmed := s.confirmed + [s.members[k]],
          updates := RebaseAll(s.updates, k, |s.confirmed|),
          members := ShiftDown(s.members, k, s.mc),
          mc := s.mc - 1)
  }

  function SetStatus(s: State, i: nat, status: Status): (r: State)
    ensures Grows(s, r)
  {
    SetSlot(s, i, Slot(s, i).(entry := Slot(s, i).entry.(status := status)))
  }

  /** The announcement carries whatever the slot holds after the shift. */
  function MarkConfirmed(env: Env, s: State, k: nat): (r: State)
    ensures Grows(s, r)
  {
    var s1 := DropPing(SetStatus(s, k, Confirmed), Slot(s, k).entry.uuid);
    var s2 := Move(s1, k);
    Announce(env, s2, ConfirmMessage, Slot(s2, k).entry)
  }

  /** `microswim_member_mark_confirmed` followed, as always, by `microswim_index_remove`. */
  function Confirm(env: Env, s: State, k: nat): (r: State)
    ensures Grows(s, r)
  {
    IndexRemove(MarkConfirmed(env, s, k))
  }

  // ----- incoming entries -----

  function Fits(e: Entry): Member -> bool {
    (m: Member) => m.entry.uuid == e.uuid || (m.entry.uuid == BLANK && m.entry.addr == e.addr)
  }

  /** Look an entry up; a blank slot with the same address takes over the uuid. */
  function Find(s: State, e: Entry): (r: (State, Option<nat>))
    ensures Grows(s, r.0)
    ensures r.1.Some? ==> r.1.value < s.mc
  {
    var i := First(Lives(s), Fits(e));
    if i.None? then (s, None)
    else
      var m := s.members[i.value];
      (SetSlot(s, i.value, m.(entry := m.entry.(uuid := e.uuid))), i)
  }

  function ConfirmedFind(s: State, u: Uuid): Option<nat> {
    First(s.confirmed, HasUuid(u))
  }

  /** Refute a suspicion about ourselves: outbid the incarnation it names. */
  function Refute(env: Env, s: State, i: nat, incarnation: nat): (r: State)
    ensures Grows(s, r)
  {
    var n := Succ(incarnation);
    var e := Slot(s, i).entry.(status := Alive, incarnation := n);
    var s1 := SetSlot(s, i, Slot(s, i).(entry := e))
              .(self := s.self.(status := Alive, incarnation := n), incs := s.incs + {n});
    Announce(env, s1, AliveMessage, Slot(s1, i).entry)
  }

  /** Does news with this status and incarnation replace what a live slot says? */
  predicate Overrides(status: Status, incarnation: nat, old_: Entry) {
    match status
    case Alive => old_.status != Confirmed && incarnation > old_.incarnation
    case Suspect =>
      || (old_.status == Suspect && incarnation > old_.incarnation)
      || (old_.status == Alive && incarnation >= old_.incarnation)
    case Confirmed => old_.status != Confirmed
  }

  function MemberUpdate(env: Env, s: State, i: nat, e: Entry): (r: State)
    ensures Grows(s, r)
  {
    var x := Slot(s, i).entry;
    if e.uuid == s.self.uuid && e.status == Suspect then Refute(env, s, i, e.incarnation)
    else if !Overrides(e.status, e.incarnation, x) then s
    else if e.status == Confirmed then
      var s1 := SetSlot(s, i, Slot(s, i).(entry := x.(status := Confirmed, incarnation := e.incarnation)));
      Confirm(env, DropPing(s1, x.uuid), i)
    else DropPing(Restamp(env, s, i, e.status, e.incarnation), x.uuid)
  }

  function MemberAdd(env: Env, s: State, e: Entry): (r: State)
    ensures Grows(s, r)
  {
    if s.mc < |s.members| then
      s.(members := s.members[s.mc := Member(e, Deadline(env, s))], mc := s.mc + 1, ticks := s.ticks + 1)
    else s
  }

  function AddLive(env: Env, s: State, e: Entry): (r: State)
    ensures Grows(s, r)
  {
    if s.mc < |s.members| then UpdateAdd(env.cfg, IndexAdd(env, MemberAdd(env, s, e)), Live(s.mc)) else s
  }

  function AddConfirmed(env: Env, s: State, e: Entry): (r: State)
    ensures Grows(s, r)
  {
    if |s.confirmed| < env.cfg.maxMembers then
      UpdateAdd(env.cfg, s.(confirmed := s.confirmed + [Member(e, 0)]), Conf(|s.confirmed|))
    else s
  }

  function Follows(s: State, u: Uuid): Update -> bool {
    (x: Update) => Deref(s, x.ref).entry.uuid == u
  }

  function UpdateFind(s: State, u: Uuid): Option<nat> {
    First(s.updates, Follows(s, u))
  }

  /** `microswim_members_check`: take in one entry of a message. */
  function Check(env: Env, s: State, e: Entry): (r: State)
    ensures Grows(s, r)
  {
    var (s1, i) := Find(s, e);
    if i.None? then
      if ConfirmedFind(s1, e.uuid).Some? then s1
      else if e.status == Confirmed then AddConfirmed(env, s1, e) else AddLive(env, s1, e)
    else
      var s2 := MemberUpdate(env, s1, i.value, e);
      if e.status == Confirmed then s2
      else
        var u := Slot(s2, i.value).entry.uuid;
        if u != BLANK && UpdateFind(s2, u).None? then UpdateAdd(env.cfg, s2, Live(i.value)) else s2
  }

  function CheckAll(env: Env, s: State, es: seq<Entry>): (r: State)
    ensures Grows(s, r)
  {
    if es == [] then s else Check(env, CheckAll(env, s, es[..|es| - 1]), es[|es| - 1])
  }

  lemma NothingHeard(env: Env, s: State)
    ensures CheckAll(env, s, []) == s
  {
  }

  /** Everything a message says: its sender first, then its updates. */
  function Extract(env: Env, s: State, m: Message): (r: State)
    ensures Grows(s, r)
  {
    CheckAll(env, s, [m.sender] + m.updates)
  }

  // ----- message handlers -----

  function PingHandle(env: Env, s: State, m: Message): (r: State)
    ensures Grows(s, r)
  {
    var (s1, ack) := Gossip(env.cfg, s, AckMessage);
    var s2 := DropPing(Send(s1, m.sender.addr, ack), m.sender.uuid);
    var (s3, i) := Find(s2, ZERO_ENTRY.(uuid := m.sender.uuid));
    if i.Some? then MarkAlive(env, s3, i.value) else s3
  }

  function PingReqHandle(env: Env, s: State, m: Message): (r: State)
    ensures Grows(s, r)
  {
    var (s1, source) := Find(s, ZERO_ENTRY.(uuid := m.sender.uuid));
    var (s2, target) := Find(s1, if m.updates == [] then ZERO_ENTRY else m.updates[0]);
    if source.None? || target.None? then s2
    else
      var (s3, ping) := Gossip(env.cfg, s2, PingMessage);
      PingReqAdd(env, Send(s3, Slot(s3, target.value).entry.addr, ping), source.value, target.value)
  }

  /** One relayed acknowledgement. */
  function Relayed(env: Env, s: State, i: nat): State
    requires i < |s.pingReqs|
  {
    var (s1, ack) := Gossip(env.cfg, s, AckMessage);
    var s2 := Send(s1, Slot(s, s.pingReqs[i].source).entry.addr, ack.(sender := Slot(s, s.pingReqs[i].target).entry));
    s2.(pingReqs := RemoveAt(s2.pingReqs, i))
  }

  /** Answer, in the target's name, the indirect pings that were waiting for it. */
  function Relay(env: Env, s: State, u: Uuid, i: nat): (r: State)
    ensures r == s.(updates := r.updates, pingReqs := r.pingReqs, outbox := r.outbox) && Grows(s, r)
    decreases |s.pingReqs| - i
  {
    if i >= |s.pingReqs| then s
    else if Slot(s, s.pingReqs[i].target).entry.uuid != u then Relay(env, s, u, i + 1)
    else
      var (s1, ack) := Gossip(env.cfg, s, AckMessage);
      var s2 := Send(s1, Slot(s, s.pingReqs[i].source).entry.addr,
                     ack.(sender := Slot(s, s.pingReqs[i].target).entry));
      Relay(env, s2.(pingReqs := RemoveAt(s2.pingReqs, i)), u, i + 1)
  }

  function AckHandle(env: Env, s: State, m: Message): (r: State)
    ensures Grows(s, r)
  {
    var p := PingFind(s, m.sender.uuid);
    if p.None? || Slot(s, s.pings[p.value].slot).entry.uuid == BLANK then s
    else
      var s1 := MarkAlive(env, s, s.pings[p.value].slot);
      var s2 := Relay(env, s1, m.sender.uuid, 0);
      if p.value < |s2.pings| then s2.(pings := RemoveAt(s2.pings, p.value)) else s2
  }

  function Handle(env: Env, s: State, m: Message): (r: State)
    ensures Grows(s, r)
  {
    match m.kind
    case PingMessage => PingHandle(env, Extract(env, s, m), m)
    case PingReqMessage => PingReqHandle(env, Extract(env, s, m), m)
    case AckMessage => AckHandle(env, Extract(env, s, m), m)
    case _ => s
  }

  // ----- periodic sweeps -----

  /** Ask each chosen helper to ping the target of p. */
  function AskHelpers(s: State, p: Ping, helpers: seq<nat>): (r: State)
    ensures r == s.(outbox := r.outbox) && Grows(s, r)
  {
    if helpers == [] then s
    else
      var s1 := AskHelpers(s, p, helpers[..|helpers| - 1]);
      Send(s1, Slot(s, helpers[|helpers| - 1]).entry.addr,
           Message(PingReqMessage, s.self, [Slot(s, p.slot).entry]))
  }

  /** One turn of the sweep over pings; an expired one is overwritten by the last. */
  function PingTurn(env: Env, s: State, now: nat, i: nat): (r: State)
    requires i < |s.pings|
    ensures Grows(s, r)
    ensures |r.pings| == if s.pings[i].suspectDeadline < now then |s.pings| - 1 else |s.pings|
  {
    var p := s.pings[i];
    if p.suspectDeadline < now then
      MarkSuspect(env, s, p.slot).(pings := s.pings[i := s.pings[|s.pings| - 1]][..|s.pings| - 1])
    else if p.pingReqDeadline < now && !p.pingReq then
      var helpers := env.pick(s.draws, s.mc);
      AskHelpers(s, p, helpers).(draws := s.draws + 1,
                                 pings := if helpers == [] then s.pings else s.pings[i := p.(pingReq := true)])
    else s
  }

  function PingsFrom(env: Env, s: State, now: nat, i: nat): (r: State)
    ensures Grows(s, r)
    decreases |s.pings| - i
  {
    if i >= |s.pings| then s
    else PingsFrom(env, PingTurn(env, s, now, i), now, if s.pings[i].suspectDeadline < now then i else i + 1)
  }

  function PingsCheck(env: Env, s: State): (r: State)
    ensures Grows(s, r)
  {
    PingsFrom(env, s.(ticks := s.ticks + 1), Now(env, s), 0)
  }

  /** One turn of the sweep over suspects. */
  function SuspectTurn(env: Env, s: State, i: nat): (r: State)
    requires i < s.mc
    ensures Grows(s, r)
    ensures r.mc <= s.mc
  {
    if s.members[i].entry.status != Suspect then s
    else
      var s1 := s.(ticks := s.ticks + 1);
      if s.members[i].timeout < Now(env, s) && ConfirmedFind(s, s.members[i].entry.uuid).None?
      then Confirm(env, s1, i) else s1
  }

  /** The sweep over suspects; a confirmation makes it skip the next slot. */
  function SuspectsFrom(env: Env, s: State, i: nat): (r: State)
    ensures Grows(s, r)
    decreases s.mc - i
  {
    if i >= s.mc then s else SuspectsFrom(env, SuspectTurn(env, s, i), i + 1)
  }

  // ----- atomic steps -----

  /** One turn of the listener thread, with the message it received, if any. */
  function Listen(env: Env, s: State, m: Option<Message>): (r: State)
    ensures Grows(s, r)
  {
    var s1 := SuspectsFrom(env, PingsCheck(env, PingReqsFrom(env, s, 0)), 0);
    if m.Some? then Handle(env, s1, m.value) else s1
  }

  /** Ping one member of the ring. */
  function Probe(env: Env, s: State, slot: nat): (r: State)
    ensures Grows(s, r)
  {
    var (s1, ping) := Gossip(env.cfg, s, PingMessage);
    PingAdd(env, Send(s1, Slot(s1, slot).entry.addr, ping), slot)
  }

  /** One turn of the failure-detection thread: probe the next `n` members of the ring. */
  function Detect(env: Env, s: State, n: nat): (r: State)
    ensures Grows(s, r)
  {
    if n == 0 then s
    else
      var (s1, to) := Retrieve(env, Detect(env, s, n - 1));
      if to.Some? then Probe(env, s1, to.value) else s1
  }

  datatype Event = Listening(received: Option<Message>) | Detecting

  function Step(env: Env, s: State, e: Event): (r: State)
    ensures Grows(s, r)
  {
    match e
    case Listening(m) => Listen(env, s, m)
    case Detecting => Detect(env, s, env.cfg.fanout)
  }

  /** A zeroed node that knows who it is. */
  function Blanked(env: Env, uuid: Uuid, addr: Addr): State {
    NodeState(Entry(uuid, addr, Alive, 0), seq(env.cfg.maxMembers, (_: nat) => ZERO_MEMBER), 0, [], [], [], [],
              seq(env.cfg.maxMembers, (_: nat) => 0), 0, 0, 0, [], {0})
  }

  /** What the start-up code leaves behind: ourselves and the blank seed. */
  function Boot(env: Env, uuid: Uuid, addr: Addr, seed: Addr): State {
    AddLive(env, AddLive(env, Blanked(env, uuid, addr), Entry(uuid, addr, Alive, 0)), Entry(BLANK, seed, Alive, 0))
  }
}
