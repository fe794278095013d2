/**
 * The results about runs and about convergence, on the assumption about addresses alone: whatever
 * statuses and incarnations the messages claim, about ourselves or about others.
 */
module AddressBook {
  import opened Types
  import opened Protocol
  import opened Invariant
  import opened Preservation
  import opened Runs
  import opened Views
  import opened Convergence
  import opened Continuity

  /** Every uuid has one address, and no two uuids share one. */
  ghost predicate OneAddressEach(book: map<Uuid, Addr>) {
    && BLANK !in book
    && (forall u, v :: u in book && v in book && u != v ==> book[u] != book[v])
    && (forall u :: u in book ==> book[u] != NO_ADDR)
  }

  predicate Claimable(claim: (Uuid, nat)) {
    true
  }

  /** The book, and no opinion on who may have had which incarnation. */
  ghost function Believing(book: map<Uuid, Addr>): Knowledge {
    Knowledge(book, iset p: (Uuid, nat) | Claimable(p))
  }

  predicate Addressed(book: map<Uuid, Addr>, e: Entry) {
    e.uuid in book && e.addr == book[e.uuid]
  }

  /** Everybody the message names, it names with the address in the book. */
  predicate Respects(book: map<Uuid, Addr>, m: Message) {
    Addressed(book, m.sender) && forall i :: 0 <= i < |m.updates| ==> Addressed(book, m.updates[i])
  }

  /** The messages among the events that are acted upon respect the book. */
  predicate AllRespect(book: map<Uuid, Addr>, es: seq<Event>) {
    forall i :: 0 <= i < |es| && es[i].Listening? && es[i].received.Some? && Handled(es[i].received.value.kind) ==>
      Respects(book, es[i].received.value)
  }

  ghost predicate StartsIn(env: Env, book: map<Uuid, Addr>, uuid: Uuid, addr: Addr, seed: Addr) {
    && OneAddressEach(book)
    && |book| <= env.cfg.maxMembers && |book| <= env.cfg.maxUpdates
    && env.cfg.maxMembers >= 2 && env.cfg.maxUpdates >= 2
    && uuid in book && book[uuid] == addr && seed in book.Values && seed != addr
  }

  lemma BookSuffices(book: map<Uuid, Addr>)
    requires OneAddressEach(book)
    ensures BookOk(Believing(book))
  {
  }

  /** A message that respects the book is acceptable in every state, whatever it claims. */
  lemma RespectSuffices(s: State, book: map<Uuid, Addr>, m: Message)
    requires OneAddressEach(book) && Respects(book, m)
    ensures MessageOk(s, Believing(book), m)
  {
    forall i | 0 <= i < |m.updates| ensures Named(s, Believing(book), m.updates[i]) {
      assert Addressed(book, m.updates[i]);
    }
  }

  lemma AllAdmissible(env: Env, s: State, book: map<Uuid, Addr>, es: seq<Event>)
    requires OneAddressEach(book) && AllRespect(book, es)
    ensures AdmissibleRun(env, s, Believing(book), es)
  {
    hide Run, MessageTo, Respects;
    forall i | 0 <= i < |es| ensures Admissible(Run(env, s, es[..i]), Believing(book), es[i]) {
      if es[i].Listening? && es[i].received.Some? && Handled(es[i].received.value.kind) {
        RespectSuffices(Run(env, s, es[..i]), book, es[i].received.value);
      }
    }
  }

  /** From start-up, any messages with true addresses: the invariant holds and no table outgrows its array. */
  lemma ReachableByAddress(env: Env, book: map<Uuid, Addr>, uuid: Uuid, addr: Addr, seed: Addr, es: seq<Event>)
    requires StartsIn(env, book, uuid, addr, seed) && AllRespect(book, es)
    ensures var s := Run(env, Boot(env, uuid, addr, seed), es);
      && Inv(s, Believing(book)) && BookOk(Believing(book)) && |s.members| == env.cfg.maxMembers
      && s.mc + |s.confirmed| == |s.updates| <= |book|
      && RoomToPing(s) && |s.pings| <= |book|
  {
    hide Inv, Boot, Run, RoomToPing, AllRespect, AdmissibleRun;
    var k, s0 := Believing(book), Boot(env, uuid, addr, seed);
    BookSuffices(book);
    AllAdmissible(env, s0, book, es);
    BootShape(env, uuid, addr, seed);
    Reachable(env, k, uuid, addr, seed, es);
    NeverOverflows(env, k, uuid, addr, seed, es);
    PingsNeverOverflow(env, k, uuid, addr, seed, es, 0);
  }

  /** A member that is confirmed at some point of such a run stays so, in the same place and unchanged. */
  lemma FrozenByAddress(env: Env, book: map<Uuid, Addr>, uuid: Uuid, addr: Addr, seed: Addr,
                        es: seq<Event>, more: seq<Event>, j: nat)
    requires StartsIn(env, book, uuid, addr, seed) && AllRespect(book, es + more)
    requires j < |Run(env, Boot(env, uuid, addr, seed), es).confirmed|
    ensures var s := Run(env, Boot(env, uuid, addr, seed), es);
      var t := Run(env, Boot(env, uuid, addr, seed), es + more);
      && j < |t.confirmed| && t.confirmed[j] == s.confirmed[j] && t.confirmed[j].entry.status == Confirmed
      && forall i :: 0 <= i < t.mc ==> t.members[i].entry.uuid != s.confirmed[j].entry.uuid
  {
    hide Inv, Boot, Run, RoomToPing, AdmissibleRun, Respects;
    var s0 := Boot(env, uuid, addr, seed);
    PartsRespect(book, es, more);
    ReachableByAddress(env, book, uuid, addr, seed, es);
    AllAdmissible(env, Run(env, s0, es), book, more);
    RunsCompose(env, s0, es, more);
    ConfirmedForever(env, Run(env, s0, es), Believing(book), more, j);
  }

  lemma PartsRespect(book: map<Uuid, Addr>, es: seq<Event>, more: seq<Event>)
    requires AllRespect(book, es + more)
    ensures AllRespect(book, es) && AllRespect(book, more)
  {
    hide Respects;
    forall i | 0 <= i < |more| ensures (es + more)[|es| + i] == more[i] {}
    forall i | 0 <= i < |es| ensures (es + more)[i] == es[i] {}
  }

  ghost predicate AllTrue(book: map<Uuid, Addr>, ms: seq<Message>) {
    forall i :: 0 <= i < |ms| ==> Handled(ms[i].kind) && Respects(book, ms[i])
  }

  lemma TrueIsGood(s: State, book: map<Uuid, Addr>, ms: seq<Message>)
    requires OneAddressEach(book) && AllTrue(book, ms)
    ensures GoodNews(s, Believing(book), ms)
  {
    hide Respects, MessageTo;
    forall i | 0 <= i < |ms| ensures MessageOk(s, Believing(book), ms[i]) { RespectSuffices(s, book, ms[i]); }
  }

  /** After any messages with true addresses, the view of u is the maximum of the old view and of all said about u. */
  lemma ExtractionByAddress(env: Env, s: State, book: map<Uuid, Addr>, ms: seq<Message>, u: Uuid)
    requires Inv(s, Believing(book)) && OneAddressEach(book) && RoomFor(env, Believing(book))
    requires |s.members| == env.cfg.maxMembers && AllTrue(book, ms) && u != BLANK && u != s.self.uuid
    ensures ViewOf(ExtractAll(env, s, ms), u) == JoinAll(ViewOf(s, u), Heard(ms), u)
  {
    hide Inv, ViewOf, ExtractAll, Heard, JoinAll, AllTrue, GoodNews;
    BookSuffices(book);
    TrueIsGood(s, book, ms);
    ExtractionJoins(env, s, Believing(book), ms, u);
  }

  /**
   * Two nodes of one book, each after any run, that agree on u and then hear the same set of words about
   * u, agree on u again: only the addresses in all these messages need to be true.
   */
  lemma ConvergeByAddress(env: Env, uuid: Uuid, addr: Addr, seed: Addr, es: seq<Event>, ms: seq<Message>,
                          envT: Env, uuidT: Uuid, addrT: Addr, seedT: Addr, esT: seq<Event>, msT: seq<Message>,
                          book: map<Uuid, Addr>, u: Uuid)
    requires StartsIn(env, book, uuid, addr, seed) && StartsIn(envT, book, uuidT, addrT, seedT)
    requires AllRespect(book, es) && AllRespect(book, esT) && AllTrue(book, ms) && AllTrue(book, msT)
    requires u != BLANK && u != uuid && u != uuidT && SameWords(Heard(ms), Heard(msT), u)
    requires ViewOf(Run(env, Boot(env, uuid, addr, seed), es), u) ==
      ViewOf(Run(envT, Boot(envT, uuidT, addrT, seedT), esT), u)
    ensures ViewOf(ExtractAll(env, Run(env, Boot(env, uuid, addr, seed), es), ms), u) ==
      ViewOf(ExtractAll(envT, Run(envT, Boot(envT, uuidT, addrT, seedT), esT), msT), u)
  {
    hide Inv, Boot, Run, RoomToPing, ViewOf, ExtractAll, Heard, AllTrue, AllRespect, GoodNews, SameWords;
    var s, t := Run(env, Boot(env, uuid, addr, seed), es), Run(envT, Boot(envT, uuidT, addrT, seedT), esT);
    BookSuffices(book);
    ReachableByAddress(env, book, uuid, addr, seed, es);
    ReachableByAddress(envT, book, uuidT, addrT, seedT, esT);
    BootShape(env, uuid, addr, seed);
    BootShape(envT, uuidT, addrT, seedT);
    TrueIsGood(s, book, ms);
    TrueIsGood(t, book, msT);
    Converge(env, s, Believing(book), ms, envT, t, Believing(book), msT, u);
  }
}
