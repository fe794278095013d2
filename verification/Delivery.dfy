/** From the tables of one node to the tables of the next: the gossip of a reachable node survives the wire. */
module Delivery {
  import opened Types
  import opened Tables
  import opened Invariant
  import opened Protocol
  import opened Runs
  import opened Continuity
  import opened Sorting
  import opened Dissemination
  import opened Numbers
  import opened JsonText
  import opened JsonEncode
  import D = JsonDecode

  // ----- messages as the codec sees them -----

  function StatusNumber(s: Status): nat {
    match s
    case Alive => 0
    case Suspect => 1
    case Confirmed => 2
  }

  function KindNumber(k: Kind): nat {
    match k
    case PingMessage => 0
    case PingReqMessage => 1
    case AckMessage => 2
    case AliveMessage => 3
    case SuspectMessage => 4
    case ConfirmMessage => 5
    case EventMessage => 6
    case UnknownMessage => D.UNKNOWN_KIND
    case MalformedMessage => D.MALFORMED_KIND
  }

  function WireOf(e: Entry): WireEntry {
    WireEntry(e.uuid, e.addr, StatusNumber(e.status), e.incarnation)
  }

  function WireList(es: seq<Entry>): (r: seq<WireEntry>)
    ensures |r| == |es| && forall i :: 0 <= i < |r| ==> r[i] == WireOf(es[i])
  {
    if es == [] then [] else [WireOf(es[0])] + WireList(es[1..])
  }

  function Wire(m: Message): WireMessage {
    WireMessage(KindNumber(m.kind), WireOf(m.sender), WireList(m.updates))
  }

  /** Nothing is lost on the way to the codec's view. */
  lemma WireTellsApart(m: Message, n: Message)
    requires Wire(m) == Wire(n)
    ensures m == n
  {
    var ms, ns := WireList(m.updates), WireList(n.updates);
    assert Wire(m).updates == ms && Wire(n).updates == ns;
    assert m.sender == n.sender by { assert Wire(m).head == Wire(n).head; }
    forall i | 0 <= i < |m.updates| ensures m.updates[i] == n.updates[i] { assert ms[i] == ns[i]; }
    assert m.kind == n.kind by { assert Wire(m).kind == Wire(n).kind; }
  }

  /** Two messages of the same text are the same message, up to what `%d` cuts off. */
  lemma TextTellsApart(inet: Inet, m: Message, n: Message)
    requires InetOk(inet) && m.updates != [] && n.updates != []
    requires FineMessage(Wire(m)) && FineMessage(Wire(n)) && Unmistakable(Wire(m)) && Unmistakable(Wire(n))
    requires EncodeText(inet, Wire(m)) == EncodeText(inet, Wire(n))
    ensures m == n
  {
    hide InetOk, FineMessage, EncodeText, D.Decode;
    var room := |m.updates| + |n.updates|;
    D.RoundTrip(inet, room, Wire(m));
    D.RoundTrip(inet, room, Wire(n));
    WireTellsApart(m, n);
  }

  // ----- the entries of a gossip message fit the format -----

  predicate WireUuid(u: Uuid) {
    && |u| <= UUID_LENGTH && (forall i :: 0 <= i < |u| ==> Plain(u[i]))
    && u !in LATER_KEYS
  }

  predicate WireAddr(a: Addr) {
    a.family == AF_INET && 1 <= a.port <= 65535 && a.ip < TWO_32
  }

  /** Uuids and addresses that the format can carry. */
  ghost predicate WireBook(k: Knowledge) {
    forall u :: u in k.book ==> WireUuid(u) && WireAddr(k.book[u])
  }

  /** All incarnations in a message are below n. */
  predicate Below(m: Message, n: nat) {
    m.sender.incarnation < n && forall i :: 0 <= i < |m.updates| ==> m.updates[i].incarnation < n
  }

  lemma NamedIsSound(s: State, k: Knowledge, e: Entry)
    requires WireBook(k) && Named(s, k, e) && e.incarnation < TWO_64
    ensures SoundEntry(WireOf(e)) && e.uuid !in LATER_KEYS
  {
  }

  lemma NamedMessageIsSound(s: State, k: Knowledge, m: Message)
    requires WireBook(k) && Below(m, TWO_64)
    requires Named(s, k, m.sender) && forall x :: 0 <= x < |m.updates| ==> Named(s, k, m.updates[x])
    ensures SoundMessage(Wire(m)) && Unmistakable(Wire(m))
  {
    hide SoundEntry, WireBook;
    NamedIsSound(s, k, m.sender);
    forall x | 0 <= x < |m.updates| ensures SoundEntry(WireOf(m.updates[x])) { NamedIsSound(s, k, m.updates[x]); }
    var w := Wire(m);
    assert forall x :: 0 <= x < |w.updates| ==> SoundEntry(w.updates[x]);
  }

  lemma ChosenIsNamed(env: Env, s: State, k: Knowledge, x: nat)
    requires Core(s, k) && x < |UpdatesRetrieve(env.cfg, s).1|
    ensures var (t, rs) := UpdatesRetrieve(env.cfg, s); Named(s, k, Deref(t, rs[x]).entry)
  {
    hide UniqueUuids, SeedOk, SelfListed, PingsOk, OutboxOk, SortByCount, Used;
    var us := SortByCount(s.updates);
    SortCorrect(s.updates);
    var n := Limit(env.cfg, us);
    var r := Choose(s, us[..n])[x];
    assert !Blank(s, r);
    var i :| 0 <= i < |us[..n]| && r == us[..n][i].ref;
    assert us[i] in multiset(s.updates);
    assert RefOk(r, s.mc, |s.confirmed|);
    assert Deref(UpdatesRetrieve(env.cfg, s).0, r) == Deref(s, r);
  }

  /** What a receiver makes of a text: the kind of the message, and all that is in it. */
  ghost predicate Reads(inet: Inet, env: Env, text: string, m: Message) {
    D.DecodeKind(text) == Some(KindNumber(m.kind)) && D.Decode(inet, env.cfg.maxUpdates, text) == Some(Wire(m))
  }

  ghost predicate Delivered(inet: Inet, env: Env, m: Message) {
    Reads(inet, env, EncodeText(inet, Wire(m)), m)
  }

  lemma DeliveredIff(inet: Inet, env: Env, m: Message)
    requires InetOk(inet) && SoundMessage(Wire(m)) && Unmistakable(Wire(m)) && 1 <= |m.updates| <= env.cfg.maxUpdates
    ensures Delivered(inet, env, m) <==> AllSurvive(Wire(m))
  {
    hide InetOk, SoundMessage, AllSurvive, EncodeText, D.Decode, D.DecodeKind, Unmistakable;
    D.RoundTripIff(inet, env.cfg.maxUpdates, Wire(m));
    if AllSurvive(Wire(m)) { D.KindReadsBack(inet, Wire(m)); }
  }

  /**
   * Whatever gossip a consistent node builds is not empty, and the receiver's decoder gets it back exactly,
   * if and only if no incarnation in it is cut off by `%d`.
   */
  lemma GossipDelivered(inet: Inet, env: Env, s: State, k: Knowledge, kind: Kind)
    requires InetOk(inet) && Core(s, k) && WireBook(k)
    requires 2 <= env.cfg.perMessage <= env.cfg.maxUpdates && Below(Gossip(env.cfg, s, kind).1, TWO_64)
    ensures var m := Gossip(env.cfg, s, kind).1;
      m.updates != [] && (Delivered(inet, env, m) <==> AllSurvive(Wire(m)))
  {
    hide InetOk, Core, WireBook, SoundMessage, AllSurvive, Unmistakable, Choose, Delivered, Below;
    var m := Gossip(env.cfg, s, kind).1;
    Parts(s, k);
    forall x | 0 <= x < |m.updates| ensures Named(s, k, m.updates[x]) { ChosenIsNamed(env, s, k, x); }
    NamedMessageIsSound(s, k, m);
    GossipHasNews(env, s, k);
    FewAreChosen(s, SortByCount(s.updates)[..Limit(env.cfg, SortByCount(s.updates))]);
    DeliveredIff(inet, env, m);
  }

  /**
   * In every run from start-up, every message sent that a receiver acts upon (pings, indirect pings, and
   * acknowledgements, those relayed for somebody else included) has updates, and decodes to itself if and
   * only if no incarnation in it is cut off by `%d`.
   */
  lemma SentIsDelivered(inet: Inet, env: Env, k: Knowledge, uuid: Uuid, addr: Addr, seed: Addr, es: seq<Event>, x: nat)
    requires InetOk(inet) && GoodStart(env, k, uuid, addr, seed) && 2 <= env.cfg.perMessage <= env.cfg.maxUpdates
    requires AdmissibleRun(env, Boot(env, uuid, addr, seed), k, es) && WireBook(k)
    requires var s := Run(env, Boot(env, uuid, addr, seed), es);
      x < |s.outbox| && Handled(s.outbox[x].message.kind) && Below(s.outbox[x].message, TWO_64)
    ensures var m := Run(env, Boot(env, uuid, addr, seed), es).outbox[x].message;
      && 1 <= |m.updates| <= env.cfg.perMessage
      && SoundMessage(Wire(m)) && (Delivered(inet, env, m) <==> AllSurvive(Wire(m)))
  {
    hide InetOk, Inv, WireBook, SoundMessage, AllSurvive, Unmistakable, Delivered, Boot, Run, AdmissibleRun, Below;
    var s0 := Boot(env, uuid, addr, seed);
    var s := Run(env, s0, es);
    var m := s.outbox[x].message;
    BootKeeps(env, k, uuid, addr, seed);
    BootShape(env, uuid, addr, seed);
    RunCarries(env, s0, k, es);
    RunKeeps(env, s0, k, es);
    SentRespectsBook(s, k, x);
    assert Telling(env, m);
    NamedMessageIsSound(s, k, m);
    DeliveredIff(inet, env, m);
  }

  lemma SentRespectsBook(s: State, k: Knowledge, x: nat)
    requires Inv(s, k) && x < |s.outbox| && Handled(s.outbox[x].message.kind)
    ensures var m := s.outbox[x].message;
      Named(s, k, m.sender) && forall y :: 0 <= y < |m.updates| ==> Named(s, k, m.updates[y])
  {
    assert MessageOk(s, k, s.outbox[x].message);
  }

  // ----- the send buffer -----

  /** `BUFFER_SIZE` and `MAXIMUM_MEMBERS_IN_AN_UPDATE` as they are shipped. */
  const BUFFER_SIZE: nat := 512
  const SHIPPED_PER_MESSAGE: nat := 3

  lemma WireIsShort(m: Message)
    requires Below(m, TWO_31)
    ensures Short(Wire(m).kind, Wire(m).head)
    ensures forall i :: 0 <= i < |Wire(m).updates| ==> Short(0, Wire(m).updates[i])
  {
  }

  /**
   * The shipped buffer is just large enough: a message with up to three updates never needs more than
   * 511 characters, as long as no incarnation prints with a sign.
   */
  lemma BufferSuffices(inet: Inet, m: Message)
    requires InetOk(inet) && SoundMessage(Wire(m)) && 1 <= |m.updates| <= SHIPPED_PER_MESSAGE
    requires Below(m, TWO_31)
    ensures |EncodeText(inet, Wire(m))| < BUFFER_SIZE
  {
    hide InetOk, SoundEntry, HeadText, ListText, Short;
    WireIsShort(m);
    HeadLength(inet, Wire(m));
    ListLength(inet, Wire(m).updates);
  }

  lemma BelowSurvives(m: Message)
    requires Below(m, TWO_31)
    ensures AllSurvive(Wire(m)) && Below(m, TWO_64)
  {
  }

  /**
   * The composition, as the wire has it: in every run from start-up with the shipped sizes, what the send
   * buffer holds of a message that a receiver acts upon is all of it, and the receiver reads that message,
   * as long as no incarnation in it prints with a sign.
   */
  lemma BufferIsDelivered(inet: Inet, env: Env, k: Knowledge, uuid: Uuid, addr: Addr, seed: Addr,
                          es: seq<Event>, x: nat)
    requires InetOk(inet) && GoodStart(env, k, uuid, addr, seed) && WireBook(k)
    requires 2 <= env.cfg.perMessage <= SHIPPED_PER_MESSAGE && env.cfg.perMessage <= env.cfg.maxUpdates
    requires AdmissibleRun(env, Boot(env, uuid, addr, seed), k, es)
    requires var s := Run(env, Boot(env, uuid, addr, seed), es);
      x < |s.outbox| && Handled(s.outbox[x].message.kind) && Below(s.outbox[x].message, TWO_31)
    ensures var m := Run(env, Boot(env, uuid, addr, seed), es).outbox[x].message;
      var text := EncodeText(inet, Wire(m));
      && m.updates != [] && |text| < BUFFER_SIZE
      && Cut(text, BUFFER_SIZE) == text && Reads(inet, env, Cut(text, BUFFER_SIZE), m)
  {
    hide InetOk, WireBook, SoundMessage, AllSurvive, Boot, Run, AdmissibleRun, EncodeText, Below, Reads;
    var m := Run(env, Boot(env, uuid, addr, seed), es).outbox[x].message;
    BelowSurvives(m);
    SentIsDelivered(inet, env, k, uuid, addr, seed, es, x);
    BufferSuffices(inet, m);
  }

  // ----- the numbers on the wire -----

  lemma OneDigit(n: nat)
    requires n < 10
    ensures IntText(Low32(n)) == ["0123456789"[n]]
  {
  }

  /** An entry as it is printed: alive is 0, suspect is 1, confirmed is 2. */
  lemma StatusOnTheWire(inet: Inet, e: Entry)
    ensures EntryText(inet, WireOf(e)) ==
      "{\"uuid\": \"" + e.uuid + "\", \"uri\": \"" + UriText(inet, e.addr) + "\", \"status\": "
      + (match e.status case Alive => "0" case Suspect => "1" case Confirmed => "2")
      + ", \"incarnation\": " + IntText(Low32(e.incarnation)) + "}"
  {
    hide EntryText, IntText, UriText;
    EntryPrinted(inet, WireOf(e));
    OneDigit(StatusNumber(e.status));
  }

  lemma Longer(p: string, t: string, a: string) returns (r: string)
    requires p <= t
    ensures r == t + a && p <= r
  {
    r := t + a;
  }

  lemma Begins(text: string, a: string, c: string, b: string)
    requires |a| == 12 && |c| == 1 && b != "" && (a + c) + b <= text
    ensures |text| > 13 && text[..12] == a && text[12] == c[0] && text[13] == b[0]
  {
    var first := (a + c) + b;
    assert text[..12] == first[..12] == a && text[12] == first[12] && text[13] == first[13];
  }

  lemma TextBegins(inet: Inet, w: WireMessage)
    requires w.kind < 10
    ensures var text := EncodeText(inet, w);
      && |text| > 13 && text[..12] == "{\"message\": " && text[12] == "0123456789"[w.kind] && text[13] == ','
  {
    hide HeadText, ListText, UriText, IntText;
    var a, c, b := "{\"message\": ", IntText(Low32(w.kind)), ", \"uuid\": \"";
    OneDigit(w.kind);
    HeadPrinted(inet, w);
    var p := (a + c) + b;
    var t := Longer(p, p, w.head.uuid);
    t := Longer(p, t, "\", \"uri\": \"");
    t := Longer(p, t, UriText(inet, w.head.addr));
    t := Longer(p, t, "\", \"status\": ");
    t := Longer(p, t, IntText(Low32(w.head.status)));
    t := Longer(p, t, ", \"incarnation\": ");
    t := Longer(p, t, IntText(Low32(w.head.incarnation)));
    t := Longer(p, t, ", \"updates\": [");
    assert t == HeadText(inet, w);
    t := Longer(p, t, ListText(inet, w.updates));
    Begins(EncodeText(inet, w), a, c, b);
  }

  /** The number that stands first in the text decides what the receiver does: 0 pings, 1 asks, 2 acknowledges. */
  lemma NumberOnTheWire(inet: Inet, env: Env, s: State, m: Message)
    ensures var text := EncodeText(inet, Wire(m));
      && |text| > 13 && text[..12] == "{\"message\": " && text[13] == ','
      && Handle(env, s, m) ==
         if text[12] == '0' then PingHandle(env, Extract(env, s, m), m)
         else if text[12] == '1' then PingReqHandle(env, Extract(env, s, m), m)
         else if text[12] == '2' then AckHandle(env, Extract(env, s, m), m)
         else s
  {
    hide EncodeText, PingHandle, PingReqHandle, AckHandle, Extract;
    TextBegins(inet, Wire(m));
  }
}
