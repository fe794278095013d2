# uSWIM: a verified model

uSWIM is a C library for group membership in small networks. Every node keeps a table of the members it
knows, probes them in random round-robin order, asks others to probe on its behalf, suspects whoever does
not answer, declares dead whoever stays suspect too long, and spreads all of this by piggybacking a few
entries on every message. This project models a node, a network of nodes and the JSON format they talk in,
and proves what the protocol and the tokenizer promise.

## How it is built

The model has two layers.

- **The C code in its own form.** `Node.Microswim` is the struct `microswim_t`: arrays, counters and a
  round-robin cursor. `RingOps`, `UpdateOps`, `PingOps`, `MemberOps` and `MessageOps` work on it in place,
  loop by loop. A `microswim_member_t*` is a reference to a slot of the live or of the confirmed array, so
  that shifting an array under live pointers means what it means in C. `JsmnInPlace` is the tokenizer with
  its backward scans over the token array; `JsonEncode` and `JsonDecode` are the printer and the token walk.
- **Specifications on values.** `Node.Microswim.Value` abstracts a node to one immutable record. `Tables`
  and `Protocol` say what each operation does to it, and every method is proved to do exactly that. `Jsmn`
  specifies the tokenizer with an explicit stack of open containers, which the C code does not have.

The theorems are about the specifications and therefore about the methods. `rand`, the clock and the choice
of helpers for an indirect ping are streams in `Env`, so a statement for all environments is a statement
for all random outcomes and clock readings. `outbox`, `incs`, `draws` and `ticks` record what was sent,
which incarnations the node ever had, and how far the streams have been read.

One assumption carries the invariants over runs: an address book in which every uuid has one address and
no two share one. The node itself is in it, the seed's address belongs to somebody else in it, and the
tables have room for all of it. The received messages that are acted upon name nodes with the addresses of
the book, and none of their entries is blank. Nothing is assumed about the statuses and incarnations they
claim, about the node itself or about others: `AddressBook` states the results about runs and convergence in
these terms. Underneath, `Invariant.Knowledge` pairs the book with a set of facts, the incarnations that
messages may name besides those the node had itself; 0 is among them for everybody. With everything in
it, messages need only respect the book (`AddressBook.RespectSuffices`); with what has been issued so far in
it, `Network` proves that nodes which start up properly never send anything else.

Results that may surprise:

- The comment on the round-robin retrieval promises NULL for an empty array only. It can also come back
  empty although there is a peer: with exactly one peer, when the cursor is on position 1, that position
  holds ourselves and the reshuffle puts us in front again. `RetrieveEmptyIff` gives the condition, and
  apart from having no peer at all there is no other case. It does happen: `PeerMissed` is such a run.
- A message without updates is not decoded, because its closing brackets are printed with the last update.
  An incarnation survives the `%d` it is printed with if and only if it lies in the signed 32-bit range,
  read as a `size_t`. A sender whose uuid is one of four keys loses its address, because the walk looks for
  these keys while it stands on the uuid. `RoundTripIff` combines all three into the exact condition.
  `SentIsDelivered` shows that in a run the first and the third never happen to a message that a receiver
  acts upon, so that it arrives if and only if `%d` cuts nothing off. `BufferIsDelivered` adds the buffer:
  with the shipped sizes and incarnations below 2^31 the 512 characters hold all of it.
- The announcement of a confirmation is built from the slot after the shift, so it names the member that
  moved in, and the confirmed one only if it was the last in the array (`AnnouncedIsConfirmedIff`).
- Refuting an old suspicion sets our incarnation to that suspicion's plus one, even downwards. `FallsIff`
  says exactly when, and `IncarnationFalls` is a run in which it goes from 2 back to 1. This is why
  `NoInventedIncarnations` speaks of every incarnation a node ever had and not of its latest.
- The guard of the ping table lets one ping too many through, yet the table never overflows: apart from one
  ping for each live slot that is pinged at all, there are no more pings than confirmed members
  (`PingsNeverOverflow`).
- Two sweeps, and the loop that relays acknowledgements, skip the element after each one they remove; a call
  still removes at least half of what it should, and the number of sweeps that clear a table is logarithmic.
- The detector is complete: when nothing more is heard, everybody with a name is confirmed after a number of
  phases that the size of the book determines, each with two passes of the ring and a listener turn behind
  all deadlines. The exceptions are exactly ourselves and a seed that never told its name, which is never
  pinged and stays alive for ever (`EverybodyConfirmed`). One phase need not reach everybody: every
  announcement of a suspicion or confirmation takes a turn of the cursor that the probes use, and a
  confirmation leaves pings of shifted slots behind. But it always brings somebody nearer (`PhaseLightens`).
- An indirect ping is passed on but not remembered among our own pings, so its answer is relayed only if we
  happen to wait for the same member ourselves (`RequestAnswered`); of several requests for one member that
  stand in a row, one answer serves every other one (`AnsweredIff`).
- A member that answers in time is never suspected (`WhoRepliesIsSpared`), provided that nobody is confirmed
  meanwhile: pings are not rebased when slots shift, and `ConfirmRedirects` says whom they mean afterwards.
- A node that hears of its own death believes it, for ever, and moves itself to the confirmed members; only a
  suspicion is answered (`ExtractionOfSelf`).

## Model

| member | source | states |
|---|---|---|
| `Protocol.Step` | examples/darwin/main.c:20-80 | No turn of either thread takes anything back: the node's identity, each confirmed member with its place and contents, issued incarnations, messages sent and clock readings only grow |
| `Node.Microswim.constructor` | examples/darwin/main.c:86-98 | A fresh node has empty tables in arrays of the configured sizes and knows only its own uuid and address |
| `MessageOps.Start` | examples/darwin/main.c:96-122 | Start-up lists ourselves first and then the seed, blank and known by address alone, in members, ring and updates |
| `Runs.BootKeeps` | examples/darwin/main.c:96-122 | The state after start-up satisfies the invariant |
| `MessageOps.ListenerTurn` | examples/darwin/main.c:21-37 | One listener turn does the three sweeps in order and then handles the message received, and keeps the node valid and its pings bounded |
| `MessageOps.DetectorTurn` | examples/darwin/main.c:46-77 | One detector turn probes the next members of the ring, as many as the fanout, never writes beyond the ping table, and keeps the node valid and its pings bounded |
| `Preservation.StepKeeps` | examples/darwin/main.c:20-80 | Every atomic step keeps the invariant: unique uuids, updates one-to-one with members, statuses, ring, seed, pings, and truthful messages |
| `Runs.RunKeeps` | examples/darwin/main.c:20-80 | The invariant holds along every run whose received messages respect the book |
| `Runs.Reachable` | examples/darwin/main.c:86-122 | Every state reachable from start-up satisfies the invariant |
| `Runs.NeverOverflows` | src/member.c:64-78 | In every reachable state live and confirmed members together equal the updates and fit the book, hence all arrays, without relying on the guards |
| `Continuity.PingsNeverOverflow` | src/ping.c:13-40 | In every reachable state there are no more pings than live and confirmed members together, and once an earlier ping to the same uuid is dropped an entry is free for a ping to any live slot |
| `Continuity.PingAddCovered` | src/ping.c:13-40 | Adding a ping keeps the pings within one for each live slot that is pinged plus one for each confirmed member |
| `Continuity.RoomForPing` | src/ping.c:20-27 | After the drop of an earlier ping to the same uuid, fewer pings are left than the book has nodes |
| `Continuity.StepCarries` | examples/darwin/main.c:20-80 | Every atomic step keeps the bound on pings, keeps for every update about a named node one about the same node with at least its use count, and sends only messages that have updates, at most as many as fit |
| `Continuity.RunCarries` | examples/darwin/main.c:20-80 | The same from any state of a run to any later one |
| `Preservation.Capacity` | src/update.c:9-19 | Live plus confirmed members are as many as updates and never outnumber the book |
| `Preservation.RoomForNewcomer` | src/member.c:363-377 | A node of the book that is not yet listed always finds room, so no add is ever refused |
| `Preservation.FillKeeps` | src/member.c:90-106 | Giving the blank seed the uuid that owns its address keeps all uuids distinct |
| `Preservation.FindKeeps` | src/member.c:90-106 | Looking an entry up keeps the invariant, returns a slot that carries its uuid, and an entry not found is really new |
| `Preservation.AddLiveKeeps` | src/member.c:425-431 | A new live member joins members, ring and updates and the invariant stays |
| `Preservation.AddConfirmedKeeps` | src/member.c:419-424 | A member first heard of as dead joins the confirmed ones and the updates and the invariant stays |
| `Preservation.MoveKeeps` | src/member.c:229-258 | Moving a live member to the confirmed array keeps everything but ring and statuses consistent at once, pointers included |
| `Preservation.SecondPhaseKeeps` | src/member.c:306-326 | Between the drop of the count and the repair of the ring, the announcement runs on a permutation of one slot more; afterwards the ring permutes the smaller range |
| `Preservation.ConfirmKeeps` | src/member.c:215-219 | Both phases of a confirmation together restore the whole invariant with one live member fewer |
| `Preservation.RefuteKeeps` | src/member.c:146-163 | Refuting a suspicion about ourselves keeps the invariant and records the new incarnation as issued |
| `OwnIncarnation.CheckTouchesSelf` | src/member.c:144-163 | Taking in an entry changes our own record only when we are listed and hear ourselves suspected; then we are alive with the suspicion's incarnation plus one, and that alone is added to the record of incarnations |
| `OwnIncarnation.FallsIff` | src/member.c:146-151 | Our own incarnation falls if and only if we refute a suspicion whose incarnation plus one is below our own |
| `OwnIncarnation.StepTouchesSelf` | examples/darwin/main.c:20-80 | In a step our own record changes only while the entries of a message are taken in |
| `OwnIncarnation.StepRecords` | src/member.c:148-149 | The recorded incarnations after a step are exactly the earlier ones and those we had in the course of it |
| `Witnesses.IncarnationFalls` | src/member.c:146-163 | A run from start-up whose messages all respect the book and in which our own incarnation goes from 2 back to 1 |
| `Preservation.MemberUpdateKeeps` | src/member.c:144-222 | Applying the precedence rules keeps the invariant |
| `Preservation.Follower` | src/update.c:24-32 | Every live slot and every confirmed slot is followed by an update: the other half of the bijection |
| `Preservation.FollowerFound` | src/update.c:24-32 | Finding an update by uuid finds the one that points at the member with that uuid |
| `Preservation.CheckKeeps` | src/member.c:413-442 | Taking in one entry keeps the invariant |
| `Preservation.ExtractKeeps` | src/message.c:117-130 | Taking in a whole message keeps the invariant |
| `Preservation.GossipKeeps` | src/message.c:38-53 | Building a gossip message keeps the invariant, and the message names only known members, none blank |
| `Preservation.PingHandleKeeps` | src/message.c:171-187 | Answering a ping keeps the invariant |
| `Preservation.PingReqHandleKeeps` | src/ping_req.c:9-33 | Serving an indirect ping keeps the invariant |
| `Preservation.RelayKeeps` | src/message.c:203-220 | Relaying acknowledgements in the target's name keeps the invariant |
| `Preservation.AckHandleKeeps` | src/message.c:192-224 | Handling an acknowledgement keeps the invariant |
| `Preservation.PingTurnKeeps` | src/ping.c:70-103 | One turn of the sweep over pings keeps the invariant |
| `Preservation.SuspectTurnKeeps` | src/member.c:448-459 | One turn of the sweep over suspects keeps the invariant |
| `Preservation.ListenKeeps` | examples/darwin/main.c:21-37 | A listener turn keeps the invariant |
| `Preservation.DetectKeeps` | examples/darwin/main.c:46-77 | A detector turn keeps the invariant |
| `Runs.ConfirmedForever` | src/member.c:413-442 | Once confirmed, an entry keeps its place, status and incarnation in every later state, and its uuid never returns to the live members |
| `Runs.ConfirmKeepsSubjects` | src/member.c:129-139 | A confirmation moves update pointers so that every update still concerns the same node with the same use count |
| `Marks.MarkAliveDoes` | src/member.c:263-280 | The slot is alive with its entry otherwise unchanged and a deadline of the current reading plus the timeout; the next in turn hears of it exactly if the slot was suspect |
| `Marks.MarkSuspectDoes` | src/member.c:285-301 | Only an alive slot becomes suspect, with a new deadline, and the next in turn hears of it; any other is left alone |
| `Marks.ConfirmDoes` | src/member.c:306-326 | The member goes behind the confirmed ones, the gap closes, the first two pings to it are gone, and the next in turn among those left hears about the slot's new holder |
| `Marks.ConfirmRedirects` | src/member.c:131-141 | After a confirmation a ping to a slot from there on means the next member, except for the last slot; pings below keep their meaning |
| `Marks.UpdateDoes` | src/member.c:144-200 | A suspicion about ourselves is outbid in record and slot, without a new timer, and announced; older news changes nothing; newer news restarts the timer and drops the first ping to the member, and is told to nobody |
| `Marks.DeathIsBelieved` | src/member.c:203-221 | Hearing CONFIRMED of a listed member, ourselves included, moves it with the incarnation heard and drops up to three pings to it |
| `Marks.AddLiveDoes` | src/member.c:425-431 | A new member takes the next slot, as described and with a new timer, and its update starts with count zero |
| `Marks.AddConfirmedDoes` | src/member.c:363-377 | A member first heard of as dead is stored without a timer, its update with count zero |
| `Runs.AnnouncedIsConfirmedIff` | src/member.c:315-325 | The CONFIRM announcement names the confirmed member if and only if that member stood last in the array |
| `Runs.FindKeepsSubjects` | src/member.c:92-98 | Naming the seed renames the subject of the update that follows its slot, and of no other; nothing else is renamed |
| `Invariant.ShuffleKeepsPerm` | src/microswim.c:124-132 | Whatever the random numbers, the shuffle permutes the first entries and leaves the others in place |
| `Invariant.IndexAddKeepsRing` | src/microswim.c:104-122 | Slipping the newest slot in at a random position extends a permutation of n slots to one of n+1 |
| `Invariant.IndexRemoveRestoresPerm` | src/microswim.c:86-102 | Dropping the highest of a permutation of n+1 slots leaves a permutation of n slots |
| `Invariant.RetrieveKeepsRing` | src/member.c:24-53 | A retrieval keeps the permutation, also while it is one larger than the live count, and brings the cursor into range |
| `Shuffling.EveryOrderComesOut` | src/microswim.c:124-132 | The shuffle misses no order: every rearrangement of the first entries comes out for some random numbers |
| `Shuffling.AnyPassMayFollow` | src/member.c:34-41 | When the cursor comes round the ring is reshuffled, and any order can follow |
| `Shuffling.NewestIsSlippedIn` | src/microswim.c:104-119 | The newest slot lands at the place drawn, which can be any, and the others keep their order |
| `Shuffling.HighestLeaves` | src/microswim.c:86-102 | Exactly the highest slot leaves the ring and the others keep their order |
| `RoundRobin.ThirdIsNotSelf` | src/member.c:31-52 | If the search meets ourselves twice in a row, a reshuffle lay between, and the third position is somebody else |
| `RoundRobin.SearchConsumes` | src/member.c:31-52 | A retrieval consumes one to three ring positions, all ourselves but possibly the last, and says which number and why |
| `RoundRobin.ThreePositionsSuffice` | src/member.c:31-52 | Searching further than three positions never changes the result: the unbounded loop ends |
| `RoundRobin.RetrieveEmptyIff` | src/member.c:39-51 | A retrieval between steps is empty if and only if nobody else is live, or there is one peer and the mid-search reshuffle puts us first again |
| `Witnesses.PeerMissed` | src/member.c:39-51 | After start-up and one probe with all random numbers zero, the next retrieval is empty although the peer is live |
| `RoundRobin.RetrievalsConsume` | src/member.c:24-53 | n retrievals in a row read n to 3n ring positions and return exactly those that are not our own, in order |
| `RoundRobin.EveryRoundIsComplete` | src/member.c:24-53 | From cursor 0, each round of as many retrievals as there are peers returns every peer exactly once, in the first round and in all later ones, whatever the shuffles |
| `RoundRobin.OnlyPeerReturned` | src/member.c:24-53 | With a single peer the first retrieval from cursor 0 returns it |
| `RoundRobin.ReturnedAgainSoon` | src/member.c:24-53 | A member returned now is returned again by the retrievals that read the next 2n-1 positions |
| `RingOps.IndicesShuffle` | src/microswim.c:124-132 | The in-place shuffle computes the specified permutation and draws one number per exchange |
| `RingOps.IndicesShift` | src/microswim.c:114-122 | Every ring entry from the position on moves one place up; the others stay |
| `RingOps.IndexAdd` | src/microswim.c:104-112 | The in-place insertion puts the newest slot at the drawn position and touches nothing else of the node |
| `RingOps.HighestIndex` | src/microswim.c:90-96 | The scan finds the first position of the highest entry |
| `RingOps.IndexRemove` | src/microswim.c:86-102 | The in-place removal closes the gap over the highest entry and touches nothing else of the node |
| `RingOps.NextIndex` | src/member.c:34-41 | One ring position: the slot under the cursor, cursor advanced, reshuffle on wrap-around |
| `RingOps.MemberRetrieve` | src/member.c:24-53 | The loop terminates and returns what the bounded search returns, between steps and inside a confirmation |
| `Sorting.SortCorrect` | src/update.c:34-46 | Sorting orders the updates by use count and only reorders them, so each keeps its member and its count |
| `Sorting.SortIsStable` | src/update.c:34-46 | Updates used equally often keep their order, for every count |
| `Sorting.DistinctTargets` | src/update.c:34-46 | Reordering keeps updates that point at different members pointing at different members |
| `UpdateOps.UpdateAdd` | src/update.c:9-19 | An update with count zero is appended, as long as the array has room |
| `UpdateOps.UpdateFind` | src/update.c:24-32 | The first update whose member carries the uuid, or none if there is none |
| `UpdateOps.InsertAt` | src/update.c:36-45 | The inner loop inserts an entry behind those used no more often |
| `UpdateOps.SortUpdates` | src/update.c:34-46 | The in-place insertion sort computes the specified insertion sort by count |
| `UpdateOps.UpdatesRetrieve` | src/update.c:51-64 | The least used named updates are chosen and counted; pointers stay one-to-one |
| `UpdateOps.MessageConstruct` | src/message.c:38-53 | A gossip message carries the node's own entry and the chosen members' entries in order |
| `UpdateOps.GossipMessage` | src/message.c:152-158 | Retrieving updates and building a message does what the specification says to the counts |
| `Dissemination.RetrievalTells` | src/update.c:51-64 | Nobody named is passed over for somebody told of more often; the use counts rise by one for exactly those told of; nobody blank is told of |
| `Dissemination.GossipSays` | src/message.c:38-54 | Gossip tells as many different members as fit, but for the blank seed at most, says of each what is stored, and says so in our own name |
| `Dissemination.OnlySeedBlank` | src/update.c:56-60 | In a consistent node at most one update is blank |
| `Dissemination.PassedOver` | src/update.c:51-64 | A retrieval that omits a named update strictly lowers the total lead of that update over the others |
| `Dissemination.ToldSoon` | src/update.c:51-64 | With a fixed update set and at least two updates a message, every named update is told within a bound given by the use counts |
| `Dissemination.GapNeverGrows` | src/update.c:34-64 | The difference between the use counts of named updates never grows beyond what it is, or one |
| `PingOps.PingFind` | src/ping.c:42-50 | The first ping whose target carries the uuid |
| `PingOps.PingRemove` | src/ping.c:52-65 | The ping is gone, the others stay in order |
| `PingOps.PingAdd` | src/ping.c:13-40 | An earlier ping to the same uuid is replaced; a blank target gets none, nor does one beyond the guard; both deadlines are set from separate clock readings |
| `PingOps.PingReqFind` | src/ping_req.c:35-45 | The first indirect ping with this source and this target |
| `PingOps.PingReqRemove` | src/ping_req.c:47-60 | The indirect ping is gone, the others stay in order |
| `PingOps.PingReqAdd` | src/ping_req.c:71-92 | An earlier indirect ping with the same ends is replaced; a blank end or a full table adds none |
| `PingOps.PingReqsCheck` | src/ping_req.c:62-69 | The in-place sweep computes the specified skipping sweep, one clock reading per entry |
| `MemberOps.MembersShift` | src/member.c:129-139 | Shifting element by element and redirecting the one update found each time rebases all update pointers exactly |
| `MemberOps.MemberMove` | src/member.c:229-258 | The move computes its closed form: member appended to the confirmed ones, gap closed, all update pointers rebased |
| `MemberOps.Announce` | src/message.c:23-33 | A status message with our entry and the member's goes to the next member in turn, if any |
| `MemberOps.MarkAlive` | src/member.c:263-280 | The slot is alive with a new timer; only a suspect is announced |
| `MemberOps.MarkSuspect` | src/member.c:285-301 | Only an alive slot becomes suspect, with a new timer and an announcement |
| `MemberOps.MarkConfirmed` | src/member.c:306-326 | Status, ping, move and announcement, the last from the slot after the shift |
| `MemberOps.Confirm` | src/member.c:218-219 | Confirming and repairing the ring together, in place |
| `MemberOps.Refute` | src/member.c:146-163 | A suspicion about ourselves is outbid by one, in our own record and in our slot, and announced |
| `MemberOps.MemberUpdate` | src/member.c:144-222 | The chain of conditions in the code is the precedence relation of the specification |
| `MemberOps.MemberFind` | src/member.c:90-106 | The first slot with the uuid, or blank with the same address and then renamed |
| `MemberOps.ConfirmedFind` | src/member.c:113-121 | The first confirmed member with the uuid |
| `MemberOps.MemberAdd` | src/member.c:64-78 | The entry is stored in the next slot with a new timer, as long as there is one |
| `MemberOps.ConfirmedAdd` | src/member.c:363-377 | The entry is appended to the confirmed members without a timer, and an update with it, as long as there is room |
| `MemberOps.MembersCheck` | src/member.c:413-442 | Taking in an entry computes its specification and leaves a valid node; nothing is refused |
| `MemberOps.MembersCheckSuspects` | src/member.c:447-460 | The in-place sweep computes the specified one and leaves a valid node |
| `MessageOps.ExtractMembers` | src/message.c:117-130 | Sender first, then the updates in order |
| `MessageOps.PingMessageHandle` | src/message.c:171-187 | An acknowledgement goes to the sender's address, its ping is dropped, and the sender is marked alive if listed |
| `Replies.PingAnswered` | src/message.c:171-187 | A ping is answered first of all, at the address it came from, in our own name; the first ping to the sender is gone; a listed sender is alive with a new timer; no other acknowledgement goes out and nothing else changes |
| `MessageOps.PingReqMessageHandle` | src/ping_req.c:9-33 | With both ends listed the target is pinged and the request remembered; otherwise nothing is sent |
| `Replies.PingReqServed` | src/ping_req.c:9-33 | With both ends live exactly one ping goes to the one asked about, and the request is stored last with the sender as source and the one asked about as target; otherwise nothing is sent or changed |
| `Replies.AckTaken` | src/message.c:192-224 | With a ping to the sender outstanding the pinged slot is alive and announced exactly if it was suspect, exactly that ping is gone, and each indirect ping reached is answered at the asker's address in the target's name; without one nothing changes |
| `Replies.AnsweredIff` | src/message.c:200-220 | A waiting indirect ping is answered if and only if a ping to the sender is outstanding and an even number of requests for the same member stand directly before it; otherwise it keeps waiting |
| `Replies.RequestAnswered` | src/message.c:200-220 | A request to ping somebody for whom nobody else waits is answered to the asker, in that member's name, if and only if we wait for the member ourselves |
| `Replies.FindKnown` | src/member.c:75-106 | A known node is found under its uuid alone, and the search changes nothing |
| `Hearing.HandleHears` | src/message.c:229-265 | What a node believes after a message: of everybody what it is told in turn, sender first, and of a sender that shows it is alive no doubt; kinds that are ignored change no view |
| `Hearing.ListenHears` | examples/darwin/main.c:21-37 | A whole listener turn: who has an expired ping is doubted, of the doubted some are taken for dead, and then the message is heard |
| `MessageOps.RelayAcks` | src/message.c:203-220 | Each matching indirect ping is answered in the target's name and removed, and the loop skips the next one |
| `MessageOps.AckMessageHandle` | src/message.c:192-224 | The pinged slot is marked alive, waiting indirect pings are answered and the ping is removed |
| `MessageOps.MessageHandle` | src/message.c:229-265 | Only pings, indirect pings and acknowledgements are acted upon |
| `MessageOps.PingsSweep` | src/ping.c:67-104 | The in-place sweep with its swap-removal computes the specified one and leaves a valid node |
| `Probing.PingsCheckSends` | src/ping.c:67-104 | The sweep meets each ping once; the unexpired ones stay, flagged exactly where help was due and could be had; for each of those one request goes to each helper, about the target alone, and there are no other requests |
| `Probing.ProbeSends` | examples/darwin/main.c:60-64 | A probe sends one ping with gossip to the slot's address, drops the first earlier ping to the same uuid, and adds a ping with the two deadlines unless the slot is blank or there is no room |
| `Probing.DetectSends` | examples/darwin/main.c:46-77 | A detector turn pings whoever the next retrievals return, in order, at their addresses and in our name, and sends nothing else |
| `Probing.DetectAwaits` | examples/darwin/main.c:46-77 | After a detector turn the node waits, with a ping whose deadlines stem from that turn, for everybody with a name whom the turn retrieved |
| `Sweeps.SkipSweepExactly` | src/ping_req.c:62-69 | In each row of expired entries the first, the third and so on are removed, and all others stay in order |
| `Sweeps.RelayAnswers` | src/message.c:203-220 | The loop answers, in order, exactly the requests it removes, each at the asker's address and in the target's name |
| `Sweeps.SkipSweepHalves` | src/ping_req.c:62-69 | One call of a skipping sweep removes at least half of the expired entries, rounded up, and keeps the others in order |
| `Sweeps.SweepingClears` | src/ping_req.c:62-69 | Fewer than 2^n expired entries are all gone after n calls, and nothing else is |
| `Sweeps.PingReqSweepsClear` | src/ping_req.c:62-69 | At a fixed clock n calls clear fewer than 2^n expired indirect pings and keep exactly the rest |
| `Sweeps.SuspectSweepsClear` | src/member.c:447-460 | At a fixed clock n calls confirm fewer than 2^n overdue suspects; the other members stay live and in order |
| `Sweeps.RelayAnswersHalf` | src/message.c:203-220 | One acknowledgement answers at least half of the indirect pings waiting for its sender, each with one acknowledgement in the sender's name, and keeps all others in order |
| `Sweeps.PingsCheckPartitions` | src/ping.c:67-104 | The pings left are, as a multiset of target slot and deadlines, exactly those whose deadline has not passed |
| `Sweeps.PingsBlame` | src/ping.c:73-80 | Exactly the targets of expired pings that were alive change, and only to suspect |
| `Sweeps.FlagsOnlyRise` | src/ping.c:81-99 | The flag of a ping only goes from false to true, despite the swapping |
| `Suspicion.StepHonest` | src/member.c:263-301 | No step backdates a suspicion: a suspect after it was one before, unchanged, or runs out a full timeout after the step began |
| `Suspicion.NoPrematureConfirmation` | src/member.c:447-460 | In every run, a member the sweep confirms at time t was listed as the same suspect with the same timer in every state within the timeout before t |
| `Outstanding.ListenQuieter` | src/message.c:171-224 | A listener turn in which nobody is confirmed adds no ping to a known member, and a reply from the member takes one off |
| `Accuracy.StepSpares` | examples/darwin/main.c:20-80 | Of a living member that a turn does not mention, the node goes on thinking so if and only if the sweep does not find a ping to it expired; hearing that it is alive does no harm |
| `Accuracy.NeverSuspected` | src/ping.c:73-80 | In every run in which no sweep finds a ping to a living member expired and nobody calls it suspect or dead, it is never suspected |
| `Accuracy.WhoRepliesIsSpared` | src/message.c:171-224 | A living member that replies to each detector turn within the protocol period is never suspected, as long as nobody is confirmed and nobody calls it suspect or dead |
| `Detection.RetrieveNears` | src/member.c:24-53 | A retrieval returns a given peer or brings the cursor nearer to it, over the reshuffle, with less than two passes to go |
| `Detection.DetectNears` | examples/darwin/main.c:46-77 | n probes come n positions nearer to any peer unless somebody is being waited for, and forget nobody who is |
| `Detection.PingsWeigh` | src/ping.c:67-104 | The sweep over pings makes progress or leaves members, ring and pings as they were; without suspects it is then that no ping had expired |
| `Detection.OverdueWeighs` | src/member.c:447-460 | With an overdue suspect the skipping sweep over suspects makes progress |
| `Detection.LateListenLightens` | examples/darwin/main.c:21-37 | Behind all deadlines, a listener turn makes progress whenever there is a suspect or a ping, a misdirected one included |
| `Completeness.SilentRun` | examples/darwin/main.c:20-80 | While no message is acted upon, no turn of either thread adds to what is left until everybody is confirmed |
| `Completeness.PhaseLightens` | examples/darwin/main.c:20-80 | Two passes of the ring and one late listener turn make progress, whatever other turns there are in between |
| `Completeness.SilenceSpares` | src/ping.c:13-40 | In silence ourselves and the blank seed stay exactly as they are: the seed gets no ping, and nobody pings himself |
| `Completeness.EverybodyConfirmed` | src/member.c:447-460 | After so many phases without news the live members left are exactly ourselves and the blank seed, where they were alive before |
| `Completeness.SilentPeerConfirmed` | src/member.c:447-460 | In particular each named live peer is then among the confirmed and no longer live |
| `Completeness.ConfirmedInSilence` | examples/darwin/main.c:20-122 | The same from start-up, after any run whose messages have true addresses |
| `Views.BelowIsTotalOrder` | src/member.c:165-209 | Confirmed above all, then incarnation, then suspicion above life: a total order |
| `Convergence.CheckJoins` | src/member.c:413-442 | Taking in an entry makes the view of its subject the maximum of the old view and the entry, ourselves included, except that a suspicion about ourselves is answered with the next incarnation; no other view changes |
| `Convergence.JoinAllIsBest` | src/member.c:165-209 | The maximum is above everything heard and is itself something heard or the old view |
| `Convergence.ExtractionJoins` | src/message.c:117-130 | After any sequence of messages each other node's view is the maximum of the old view and of all entries heard about it |
| `Convergence.ExtractionOfSelf` | src/member.c:144-222 | After any sequence of messages our view of ourselves heeds each word about us in turn: we are dead to ourselves if and only if we were or were told so, and never doubted |
| `Convergence.SameWordsSameJoin` | src/message.c:117-130 | The maximum depends only on the set of words heard, not on order, grouping or repetition |
| `Convergence.Converge` | src/message.c:117-130 | Two nodes that agree on somebody and hear the same set of words about them agree again, however their slots, rings and messages differ |
| `AddressBook.RespectSuffices` | src/message.c:117-130 | A message whose addresses are true is acceptable in every state, whatever it claims about anybody, ourselves included |
| `AddressBook.AllAdmissible` | examples/darwin/main.c:20-80 | A run is admissible as soon as the messages it acts upon have true addresses |
| `AddressBook.ReachableByAddress` | examples/darwin/main.c:86-122 | From start-up, after any messages with true addresses, the invariant holds, members and updates fit the book, and so do the pings |
| `AddressBook.FrozenByAddress` | src/member.c:413-442 | In every such run a confirmed member keeps its place, status and incarnation, and never comes back among the live |
| `AddressBook.ExtractionByAddress` | src/message.c:117-130 | After any messages with true addresses the view of another node is the maximum of the old view and of all that was said |
| `AddressBook.ConvergeByAddress` | src/message.c:117-130 | Two nodes of one book, each after any such run, that agree on somebody and then hear the same words about them agree again |
| `Network.NextKeeps` | examples/darwin/main.c:20-80 | One turn of one node keeps the invariants of all nodes, with what has been issued so far as the only facts |
| `Network.NetworkSafe` | examples/darwin/main.c:20-122 | In every run of N nodes with loss, duplication, delay and reordering every node keeps its invariant, and messages that are acted upon name nodes of the book with their own addresses |
| `Network.NoInventedIncarnations` | src/message.c:203-218 | In every run each incarnation stored for a node anywhere or in flight, relayed acknowledgements included, was once that node's own |
| `Exchange.RoundTripOfProbe` | src/message.c:171-224 | Between any two nodes of a network: a probe goes to the address of the member retrieved, whoever takes it in answers at the prober's address, and the prober that takes the answer in has the member alive and waits for it no more |
| `Jsmn.StepKeeps` | include/jsmn.h:275-441 | After every character the open tokens are exactly the stack, tokens lie in the text and later ones lie behind or inside earlier ones |
| `Jsmn.RunKeeps` | include/jsmn.h:268-453 | The same for whole parses; a successful one leaves no open token and returns the number of tokens |
| `Jsmn.ParseYieldsForest` | include/jsmn.h:268-453 | On success all tokens are closed and in range, starts increase, ranges are nested or disjoint and brackets match by type |
| `Jsmn.RunSpells` | include/jsmn.h:135-263 | Every string token runs from one quote to the next that is not escaped, with only the permitted escapes between; every primitive is printable and ends at a delimiter |
| `Jsmn.NeverOutOfTokens` | src/decode_json.c:123-126 | With as many tokens as characters, which is what the decoder provides, the tokenizer never runs out |
| `Jsmn.StepConserves` | include/jsmn.h:291-306 | After every character, the sizes of all tokens plus the tokens made without a superior equal the number of tokens |
| `Jsmn.RunConserves` | include/jsmn.h:425-432 | The same for whole parses |
| `Jsmn.Resume` | include/jsmn.h:268-291 | A parse that ran out of tokens and resumes with more ends exactly as one that had them from the start |
| `Jsmn.CountPredicts` | include/jsmn.h:284-286 | If the parse succeeds, the run without tokens returns the same count, which is the number of tokens |
| `JsmnInPlace.AllocToken` | include/jsmn.h:106-119 | The next free token, or none when the array is full |
| `JsmnInPlace.ScanPrimitive` | include/jsmn.h:141-165 | The scan stops at the end of the primitive or restores the position on a bad character |
| `JsmnInPlace.ScanString` | include/jsmn.h:198-263 | The scan stops at the closing quote or restores the position on a bad escape or a missing quote |
| `JsmnInPlace.ParseString` | include/jsmn.h:193-263 | A string becomes one token; on any failure the state is as before |
| `JsmnInPlace.ParsePrimitive` | include/jsmn.h:135-188 | A primitive becomes one token; on any failure the state is as before |
| `JsmnInPlace.LastOpen` | include/jsmn.h:337-358 | The backward scan for an open token finds the top of the stack |
| `JsmnInPlace.LastOpenContainer` | include/jsmn.h:386-393 | The backward scan behind a comma finds the top of the stack too |
| `JsmnInPlace.OpenBracket` | include/jsmn.h:281-307 | An opening bracket pushes a token, or reports that there is none left |
| `JsmnInPlace.CloseBracket` | include/jsmn.h:308-360 | A closing bracket pops the matching container and makes the one below superior, or is rejected |
| `JsmnInPlace.Comma` | include/jsmn.h:379-396 | A comma goes back from a key to its container |
| `JsmnInPlace.Parse` | include/jsmn.h:268-453 | The parser without a stack computes what the parser with an explicit stack computes, fresh or resumed |
| `JsmnInPlace.Count` | include/jsmn.h:268-453 | The run without tokens computes the specified count |
| `JsonEncode.EncodeMessage` | src/encode_json.c:8-32 | The format strings and the loop print the specified text, cut to the buffer, and return its full length; the code writes beyond the buffer if and only if more than the closing brackets lies behind it |
| `JsonTokens.FieldsRun` | include/jsmn.h:361-395 | A list of key-value pairs becomes two tokens each, the keys of size one, under the enclosing object |
| `JsonTokens.EncodedTokens` | include/jsmn.h:268-453 | The text of a message with updates tokenizes to exactly the expected tokens: thirteen, and nine for each update |
| `JsonTokens.EmptyIsPartial` | src/encode_json.c:17-29 | The text of a message without updates is rejected as incomplete |
| `JsonText.UriReadsBack` | src/decode_json.c:83-117 | An address survives being printed as a uri and read back |
| `Numbers.StrtolReads` | src/decode_json.c:153-160 | A decimal number survives being printed and read back, when no digit follows |
| `Numbers.SizeSurvivesIff` | src/encode_json.c:11-16 | A `size_t` survives being printed with `%d` and read back if and only if it is in the signed 32-bit range |
| `JsonDecode.EntryShows` | src/decode_json.c:177-208 | The cursor arithmetic is right: the j-th update object is token 13 + 9j and its fields follow in pairs |
| `JsonDecode.RoundTakes` | src/decode_json.c:138-160 | One round of the head loop takes exactly the field under the cursor: its value is not mistaken for a key |
| `JsonDecode.WalkFills` | src/decode_json.c:177-208 | The nested loops, with their shared cursor, fill in every update completely |
| `JsonDecode.HeadWalks` | src/decode_json.c:137-211 | The walk over the head and the updates reads the whole message |
| `JsonDecode.DecodeUpdates` | src/decode_json.c:161-210 | The loops compute the specified walk on any tokens |
| `JsonDecode.DecodeMessage` | src/decode_json.c:120-213 | Parsing and walking compute the specified decoding on any text; a text that does not parse to an object leaves the message zeroed |
| `JsonDecode.DecodeMessageType` | src/decode_json.c:17-44 | The kind is the number after the first key "message", malformed without one or without a parse, unknown for anything but an object |
| `JsonDecode.RoundTrip` | src/decode_json.c:120-213 | Decoding the text of a fine message from a sender not named like a key gives the message back; without updates it gives a zeroed one |
| `JsonDecode.Misread` | src/decode_json.c:142-161 | If the sender is named like one of the keys that follow its uuid, its address is lost |
| `JsonDecode.RoundTripIff` | src/encode_json.c:8-32 | A well-formed message comes back if and only if it has at least one update, no more than fit, every incarnation survives `%d`, and the sender is not named like a key |
| `JsonDecode.KindReadsBack` | src/decode_json.c:17-44 | The kind read on its own is the kind sent, or malformed when there are no updates |
| `Delivery.WireTellsApart` | include/microswim.h:27-43 | Numbering statuses and kinds as the enumerations do loses nothing |
| `Delivery.StatusOnTheWire` | include/microswim.h:27-31 | In a printed entry alive is 0, suspect is 1 and confirmed is 2 |
| `Delivery.NumberOnTheWire` | include/microswim.h:33-43 | The first number of a text decides what its receiver does: 0 pings, 1 asks for an indirect ping, 2 acknowledges, any other is ignored |
| `Delivery.TextTellsApart` | src/encode_json.c:8-32 | Two fine messages with updates and the same text are the same message |
| `Dissemination.GossipHasNews` | src/update.c:51-64 | With room for two updates a message, gossip of a consistent node is never empty |
| `Delivery.GossipDelivered` | src/message.c:229-265 | Gossip of a consistent node is not empty and decodes at the receiver to the same kind and the same message, if and only if `%d` cuts no incarnation in it |
| `Delivery.SentIsDelivered` | src/message.c:229-265 | In every run from start-up every ping, indirect ping and acknowledgement sent, relayed ones included, has updates and decodes at the receiver to the same kind and message, if and only if `%d` cuts no incarnation in it |
| `Delivery.BufferSuffices` | include/microswim_configuration.h:8-17 | The shipped 512-character buffer holds every message of up to three updates whose incarnations print without a sign |
| `Delivery.BufferIsDelivered` | src/encode_json.c:8-32 | With the shipped sizes and incarnations below 2^31, what the send buffer holds of each such message is all of it and decodes to kind and message |

## Left out

- Sockets, `sendto`, `recvfrom` and the RIOT endpoints: sending appends to an outbox, receiving is a parameter of a turn.
- The CBOR codec (src/encode_cbor.c, src/decode_cbor.c): it rests on libcbor, which is not part of this model.
- Events (src/m_event.c) and the handling of event messages: table plumbing with an application callback.
- Receipt of ALIVE, SUSPECT and CONFIRM messages: the code ignores them, and so does the model.
- Correct targets of pings and indirect pings across a confirmation: those pointers are not rebased in the code, so `Marks.ConfirmRedirects` says whom a ping means afterwards, and the other properties of pings are stated by slot.
- The rejection loop that picks helpers for an indirect ping (src/member.c:384-408): it terminates only with luck and reads one cell before writing it; the model takes any choice of distinct slots above 0 and below the live count, as many as can be had. With no live member the unsigned count minus one wraps in the code; the model then picks nobody.
- `inet_pton` and `inet_ntop`: parameters that invert each other on addresses, with texts of at most 15 plain characters.
- Uuid generation, logging, and binding to INADDR_ANY, where the node's own address would not be the one peers see.
- Wrap-around of clock readings and deadlines at 64 bits. The wrap-around of incarnations is modelled.
- Status numbers other than the three of the enumeration in received messages.
- The RIOT variant of the address comparison; the model compares family, port and address as the POSIX build does.
- JSMN_STRICT and JSMN_PARENT_LINKS: neither is defined in the repository's builds.
- Configurations in which MAXIMUM_PINGS exceeds MAXIMUM_MEMBERS: the arrays of pings and indirect pings have one entry for each member (include/microswim.h:113-118), and the guard of the indirect pings would let writes beyond it.
- Completeness of gossip under probabilities, and the time until a whole network has heard a piece of news.
- What a write beyond a full array does: there the guards of the code (`>`) let one add through, and `MemberOps.MemberAdd`, `MemberOps.ConfirmedAdd`, `UpdateOps.UpdateAdd` and `PingOps.PingAdd` report it and add nothing. `Runs.NeverOverflows` and `Continuity.PingsNeverOverflow` show that no reachable state gets there.
- MemberOps.MembersCheck: the code adds an update for a listed member that has none; the model only shows that this never happens.
- JsonDecode.DecodeMessage: where the C walk would read past the tokens or overrun a buffer the model returns nothing instead of modelling what memory holds.
- JsonEncode.EncodeMessage: returns nothing where the wrapped size lets the code write beyond the buffer. `Delivery.BufferSuffices` shows when the shipped buffer is large enough.
- Delivery.SentIsDelivered: announcements are not covered, since receivers ignore them; incarnations are those of a `size_t`, and uuids and addresses those the format can carry.
- Completeness.EverybodyConfirmed: speaks of runs in which no message is acted upon. While others still talk, their news and acknowledgements can use up any number of turns of the cursor.
- Accuracy.WhoRepliesIsSpared: speaks of runs in which nobody is confirmed. `Accuracy.NeverSuspected` covers all runs, with the condition that no sweep finds a ping to the member's slot expired.
- Exchange.RoundTripOfProbe: u takes the answer in before its sweep finds the ping expired and in a turn in which nobody is confirmed; other turns in between are not part of the statement.
