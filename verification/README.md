# Verified model of the arena's netplay and simulation

This project models, in Dafny, the four parts of the repository where a mistake
is hardest to see: the lobby bootstrap between a rendezvous server and its
clients, the integer-only arena simulation, rollback recording with offline
replay, and the codecs and queues underneath. `dafny verify dfyconfig.toml`
checks everything.

Each stateful component exists twice: as a function of its state, and as an
object whose fields and arrays are updated in place by the program's own loops,
proved equal to the function step by step. The properties are then proved about
the functions, over every input and every run.

## The parts

**Server** (`rendezvous*.dfy`). A session table, token buckets, fan-out, seven
handlers and a periodic tick. Sessions evolve: identity and members stay, the
phase only moves forward, a decided route never changes. Nothing is assumed
about who sends what. Times are true times; the server sees their low 32 bits,
and the expiry and rate results are stated in true time.

**Clients and composition** (`lobby_client.dfy`, `lobby_object.dfy`,
`bootstrap*.dfy`). Any number of honest clients, one server, and a network that
keeps every packet ever sent deliverable at any time and any number of times:
never delivering is loss, delivering twice is duplication, delivering late is
reordering. One client per address, joiners type a code that some host
displays, addresses are what their owners send from, and no session is reaped
while the bootstrap is under way. The invariant ties each client's beliefs to
the server's record, each verdict on record to what its reporter has seen, and
each packet in flight to its sender. Its least obvious clause concerns a joiner
that hears of a peer and of a route before it knows its own slot: it then files
the route under the wrong pair, but has never probed or reported that peer, and
nonces never coincide, so no READY client takes a wrong route for a verdict.

A second invariant (`bootstrap_answers.dfy`, `bootstrap_seen.dfy`) follows every
probe and acknowledgement: what each client was told of its peers, where its
probes went, which packet answered them. So a direct route leads to an address
that answered the client's own probe in the name of the peer's slot
(`bootstrap_paths.dfy`). `bootstrap_stray.dfy` runs one whole bootstrap from a
fresh server to two READY clients and gives the exact condition under which that
address is not the peer's.

**Lobby codes and wire format** (`lobby_code.dfy`, `lobby_proto.dfy`,
`lobby_buffers.dfy`). The CRC is treated as a linear shift register over the
code's bit stream; the buffers are real arrays.

**Simulation** (`arena_*.dfy`). One tick as functions, stage by stage in the
program's order, with both maps. The proofs follow the stages: a frame for each
(what it may change), then the invariants. Bomb ownership, bomb lifetime, height
and speed, score, and hit spacing hold on both maps; the position box is proved
for map 0. Coordinates are unbounded integers in the model. `arena_words.dfy`
lists, stage by stage, every sum, product, quotient and length a tick computes on
the way, and `WordsFit` proves that on map 0 each of them fits the 32 or 64 bits
the program gives it, in every tick of every run. Narrow counters (timers,
scores, stocks, ticks) wrap explicitly.

**Rollback and replay** (`fnv.dfy`, `arena_bytes.dfy`, `sync_*.dfy`,
`replay_bundle.dfy`). The session's save, load and advance loop with its history
and hash ring, under any driver that restores only snapshots the current history
still explains; the replay tool's verdict is exact because FNV-1a never hides a
one-byte difference and a tick carries the generator along untouched.

**Adapter queues** (`net_adapter.dfy`). The impairment delay queue with its
in-place compaction, and the ring of lobby packets.

## Where code and expectation differ

- A round that ends without a match winner is back in PLAY after exactly 360
  ticks, but the field need not be empty then: play is already on during that
  tick, so a newly pressed set or bomb button takes effect in it. `PlayTick`
  gives the exact condition, `FieldMayFill` an input, `OpeningMayFill` a run from
  the first tick of a match, and `RoundToLastCount` what does hold one tick
  earlier.
- A direct route need not lead to the peer. A joiner that has not heard its slot
  yet answers probes in the name of slot 0, and a client probing the private
  endpoint its host advertised takes that joiner for the host. `MisleadsExactly`:
  a READY client's direct route to f can lead to g, other than f, exactly if g is
  the private endpoint f advertised and has a port. `StrayHappens` is the run, and
  under `RunsApart`, which a caller can check before each join, it never happens.
- `impaired_send`'s reordering promises that a pair leaves in the opposite order.
  It only delays the earlier packet by a millisecond: `Overtakes` shows that a
  flush at which both are due sends them in the order they were queued.
- The comment on `iatan2` promises less than one degree of error; the formula
  does not deliver that, and only its exact symmetries are proved.
- Bombs last at most TUNE_FUSE_TICKS + 1 ticks out of the hand, one tick less
  than the kick's skipped decrement suggests.

## Model

| member | source | states |
|---|---|---|
| XorShift.NoShortCycle | src/lobby/rendezvous.c:17 | a nonzero generator state comes back neither after one draw nor after two, and never becomes zero, so three consecutive draws differ |
| Rendezvous.FindSession | src/lobby/rendezvous.c:40-47 | the first live session with that id, never for id 0; None exactly when no live session has it |
| Rendezvous.PeerOf | src/lobby/rendezvous.c:49-54 | the least member slot owning that address; None exactly when no member has it |
| Rendezvous.PickId | src/lobby/rendezvous.c:165-171 | a drawn id is nonzero and names no live session |
| RendezvousServer.Server.constructor | src/lobby/rendezvous.c:368-377 | a fresh server: every slot cleared, every bucket full, a nonzero generator |
| RendezvousServer.Server.TakeToken | src/lobby/rendezvous.c:60-74 | exactly one bucket changes, as RateTake says, and the answer is RateTake's |
| RendezvousServer.Server.Find | src/lobby/rendezvous.c:40-47 | the scan finds what FindSession says |
| RendezvousServer.Server.DrawId | src/lobby/rendezvous.c:165-171 | the bounded drawing loop ends in the generator state and id of PickId |
| RendezvousServer.SlotOf | src/lobby/rendezvous.c:49-54 | the scan finds what PeerOf says |
| RendezvousServer.FanIntros | src/lobby/rendezvous.c:81-101 | one introduction each way between the newcomer and every other member, in slot order |
| RendezvousServer.ResendTo | src/lobby/rendezvous.c:117-128 | every other member again, to one member only |
| RendezvousServer.FanStarts | src/lobby/rendezvous.c:130-137 | START to every member, or to the unacknowledged ones |
| RendezvousServer.EveryoneAcked | src/lobby/rendezvous.c:332-335 | true exactly when every member has acknowledged |
| RendezvousServer.AnyRelay | src/lobby/rendezvous.c:422-427 | true exactly when some decided pair is relayed |
| RendezvousServer.Server.DoHostReq | src/lobby/rendezvous.c:140-189 | new state and answers of HandleHostReq: the idempotent retry, the full table, the new session |
| RendezvousServer.Server.DoJoinReq | src/lobby/rendezvous.c:191-233 | new state and answers of the join, with its six outcomes in the program's order |
| RendezvousServer.Server.DoPunchReport | src/lobby/rendezvous.c:235-289 | new state and answers of a report: dropped, recorded, replayed to the reporter or decided and fanned out |
| RendezvousServer.Server.DoStart | src/lobby/rendezvous.c:291-321 | new state and fan-out of a START |
| RendezvousServer.Server.DoStartAck | src/lobby/rendezvous.c:323-336 | new state after an acknowledgement, RUNNING after the last one |
| RendezvousServer.Server.DoKeepalive | src/lobby/rendezvous.c:338-346 | new state after a keepalive |
| RendezvousServer.Server.DoRelay | src/lobby/rendezvous.c:348-364 | the packet goes out verbatim to the target's address, or nothing happens |
| RendezvousServer.Server.Receive | src/lobby/rendezvous.c:379-401 | the whole handler equals Handle on the abstract server: state and output, relayed traffic unthrottled |
| RendezvousServer.Server.TickOne | src/lobby/rendezvous.c:406-432 | one session is refanned if due and reaped if expired, the others untouched |
| RendezvousServer.Server.Tick | src/lobby/rendezvous.c:403-434 | the loop over the table equals Tick on the abstract server: state and output |
| RendezvousTable.JoinKeeps | src/lobby/rendezvous.c:191-233 | a join keeps the session invariant (used slots are the prefix of length joined, distinct addresses, size within 2..4), lets the session only evolve, and every answer is true of the new state |
| RendezvousTable.ReportKeeps | src/lobby/rendezvous.c:235-289 | the same for a report: decided routes are symmetric, stay decided, and every PAIR_ROUTE carries the route on record |
| RendezvousTable.BeginStartKeeps | src/lobby/rendezvous.c:291-321 | the same for START; the lobby becomes STARTING with some member unacknowledged |
| RendezvousTable.AckKeeps | src/lobby/rendezvous.c:323-336 | the same for START_ACK; RUNNING exactly when all have acknowledged |
| RendezvousTable.HostReqKeeps | src/lobby/rendezvous.c:140-189 | the same for the table: ids stay distinct and nonzero, at most one lobby per host |
| RendezvousTable.HandleKeeps | src/lobby/rendezvous.c:379-401 | every message from anyone keeps the table invariant, lets live sessions only evolve, and is answered only with messages vouched for by the new table |
| RendezvousTick.TickFromIs | src/lobby/rendezvous.c:403-434 | the tick's loop treats every session alike and independently, and only sends what some session's own tick sends |
| RendezvousTick.TickKeeps | src/lobby/rendezvous.c:403-434 | a tick keeps the table invariant: a session is cleared whole exactly when expired, otherwise only its resend stamp may change |
| RendezvousRuns.TakeKeeps | src/lobby/rendezvous.c:379-434 | life cycle of every slot in every event: free to free or freshly opened, live to evolved, live to free only by an expiring tick |
| RendezvousRuns.TableInvOverRuns | src/lobby/rendezvous.c:140-233 | every state of every run satisfies the table invariant |
| RendezvousRuns.LifeEvolves | src/lobby/rendezvous.c:291-336 | over a session's life phases only move forward, identity and members stay, decided routes never change |
| RendezvousRoutes.OnlyReportsEmit | src/lobby/rendezvous.c:262-288 | a PAIR_ROUTE is only ever sent in answer to a report to a live session |
| RendezvousRoutes.VerdictHasOrigin | src/lobby/rendezvous.c:272-281 | every recorded route was decided at one event of this very session's life, DIRECT exactly when both recorded verdicts were ok at that event |
| RendezvousRoutes.RouteIsImmutable | src/lobby/rendezvous.c:235-288 | any two PAIR_ROUTEs sent for one pair in one session's life carry the same route |
| RendezvousRoutes.RouteHasOrigin | src/lobby/rendezvous.c:34-38 | every PAIR_ROUTE ever sent traces to a decision in the life of the session it was sent for; recycled slots leak nothing |
| RendezvousClock.ElapsedIsNoLonger | src/lobby/rendezvous.c:410-431 | a difference of wrapped clocks never exceeds the true time between |
| RendezvousClock.LobbySurvives | src/lobby/rendezvous.c:409-412 | a LOBBY session outlives every event up to ten minutes after any packet it accepted from a member, the HOST_REQ that opened it included |
| RendezvousClock.StartedSurvives | src/lobby/rendezvous.c:306-316 | a started session without a relayed pair outlives every event up to thirty seconds after its first START |
| RendezvousClock.RelayedSurvives | src/lobby/rendezvous.c:278-281 | a started session with a relayed pair outlives every event up to sixty seconds after the latest of first START, relay decision and forwarded packet |
| RendezvousClock.RefillSaturates | src/lobby/rendezvous.c:60-74 | both refill branches are one saturating refill, and the additive one stays below 2^32 |
| RendezvousClock.BucketBound | src/lobby/rendezvous.c:60-74 | in any stretch of any run a bucket admits at most 40 plus 20 per second of true time, and its level never exceeds the cap |
| LobbyObject.Lobby.EveryPeerPresent | src/netplay/lobby_client.c:122-126 | the readiness loop computes AllPeersPresent |
| LobbyObject.Lobby.EveryLocalRoute | src/netplay/lobby_client.c:128-135 | the readiness loop computes LocalRoutesDecided |
| LobbyObject.Lobby.EveryPair | src/netplay/lobby_client.c:137-143 | the readiness loop computes AllPairsDecided |
| LobbyObject.Lobby.Fill | src/netplay/lobby_client.c:145-164 | the result's loop gives every slot the route RouteTo says |
| LobbyObject.Lobby.HearHostResp | src/netplay/lobby_client.c:194-203 | in-place update: the session id, the code and slot 0 are taken, in REGISTERING only |
| LobbyObject.Lobby.HearJoinResp | src/netplay/lobby_client.c:205-215 | in-place update: slot and player count are taken, in JOINING only |
| LobbyObject.Lobby.HearIntro | src/netplay/lobby_client.c:223-239 | in-place update: endpoints refreshed, and at the first introduction a fresh nonce and an open route |
| LobbyObject.Lobby.HearPunchAck | src/netplay/lobby_client.c:255-268 | in-place update and report: only an unacknowledged peer's own nonce counts, and the answering address is kept |
| LobbyObject.Lobby.HearPairRoute | src/netplay/lobby_client.c:270-278 | in-place update: the pair is known both ways, and a pair of one's own sets that peer's route |
| LobbyObject.Lobby.HearStart | src/netplay/lobby_client.c:280-303 | in-place update and answer: the host fails on a differing echo, a joiner adopts the match, every START is acknowledged |
| LobbyObject.Lobby.DrainInbox | src/netplay/lobby_client.c:370-380 | the receive loop equals Drain: in order, stopping at a failure |
| LobbyObject.Lobby.Enter | src/netplay/lobby_client.c:170-178 | the clocks of every peer restart on entering PUNCHING |
| LobbyObject.Lobby.PunchOne | src/netplay/lobby_client.c:417-451 | one peer: nothing once arbitrated, a report repeated or given up on, or a probe to the alternating address |
| LobbyObject.Lobby.PunchAll | src/netplay/lobby_client.c:415-453 | the probe and report loop equals PunchFrom: new client and packets |
| LobbyObject.Lobby.Duty | src/netplay/lobby_client.c:385-456 | the per-stage duty equals StageDuty |
| LobbyObject.Lobby.Offer | src/netplay/lobby_client.c:461-468 | the host's START duty equals HostDuty |
| LobbyObject.Lobby.Complete | src/netplay/lobby_client.c:471-480 | completion equals Finish |
| LobbyObject.Lobby.Keep | src/netplay/lobby_client.c:482-490 | the keepalive duty equals KeepDuty |
| LobbyObject.Lobby.PollOnce | src/netplay/lobby_client.c:364-493 | a whole poll equals Poll: new client and all packets in order |
| LobbyObject.Lobby.PostPoll | src/netplay/lobby_client.c:500-522 | the loop over the ringed packets answers each as PostReceive says, in order |
| LobbyObject.Lobby.BeginHost | src/netplay/lobby_client.c:320-338 | None exactly for a player count outside 2..4, else HostBegin's client and request |
| LobbyObject.Lobby.BeginJoin | src/netplay/lobby_client.c:340-354 | with the server and the session the code decodes to, JoinBegin's client and request |
| Bootstrap.RouteIsVerdict | src/netplay/lobby_client.c:270-278 | the route a seated client holds for a decided pair is the server's verdict |
| Bootstrap.ReadyAgreement | src/netplay/lobby_client.c:145-164 | two READY clients of one session: same seed, arena, player count and delay, and the same kind of route to each other |
| BootstrapReceive.JoinRespSeat | src/netplay/lobby_client.c:205-215 | taking a seat keeps the bootstrap's invariant: nonces, silence before the seat, server's record |
| BootstrapReceive.PeerIntroGood | src/netplay/lobby_client.c:223-239 | an introduction keeps the invariant: its nonce differs from every other in use |
| BootstrapSettle.PunchAckGood | src/netplay/lobby_client.c:255-268 | a matching PUNCH_ACK answers a probe this client sent, so the report that follows is true |
| BootstrapSettle.PairRouteGood | src/netplay/lobby_client.c:270-278 | a PAIR_ROUTE leaves the client with the server's verdict, or with a route for a peer it never probed or reported |
| BootstrapSettle.StartGood | src/netplay/lobby_client.c:280-303 | a START reaching a client carries the host's parameters over a fully decided mesh; the host never sees a mismatching echo |
| BootstrapPoll.ReceiveGood | src/netplay/lobby_client.c:191-308 | every deliverable message keeps the client's part of the invariant and every answer is true |
| BootstrapPoll.PunchFromKeeps | src/netplay/lobby_client.c:415-453 | the probing loop keeps the invariant |
| BootstrapPoll.PollKeeps | src/netplay/lobby_client.c:364-493 | a whole poll keeps the invariant |
| BootstrapSteps.PostKeeps | src/netplay/lobby_client.c:500-522 | the answers after READY keep the invariant |
| BootstrapSteps.HostStartKeeps | src/netplay/lobby_client.c:320-338 | a new host keeps the invariant |
| BootstrapSteps.JoinStartKeeps | src/netplay/lobby_client.c:340-354 | a joiner typing a code that some host displays means exactly that host's session |
| BootstrapDispatch.ReportTrue | src/lobby/rendezvous.c:235-254 | a report the server accepts comes from the slot its sender believes it holds, so the verdict recorded is what the sender has seen |
| BootstrapHandle.DispatchTidy | src/lobby/rendezvous.c:387-400 | every handled message keeps every session's record of what clients said, and every START sent names the host's parameters |
| BootstrapRuns.ReceiveKeeps | src/lobby/rendezvous.c:379-401 | a handled packet keeps the whole invariant |
| BootstrapRuns.TickKeepsInv | src/lobby/rendezvous.c:403-434 | a tick that reaps nothing keeps the whole invariant |
| BootstrapRuns.ApplyKeeps | src/netplay/lobby_client.c:364-522 | every step of the composed system keeps the invariant |
| BootstrapAnswers.AnswersSlot | src/netplay/lobby_client.c:242-253 | a client that answers a probe names a slot the server has it in exactly if it is not JOINING; a JOINING one is a joiner and says 0 |
| BootstrapAnswers.IntroSound | src/netplay/lobby_client.c:223-239 | what a client is told of a peer is the server's record of that slot, which never changes |
| BootstrapAnswers.PunchAckSound | src/netplay/lobby_client.c:255-268 | an acknowledged peer has, in the network, a PUNCH_ACK from the chosen address with this session, that slot and the client's own nonce |
| BootstrapSeen.PunchPeerSafe | src/netplay/lobby_client.c:417-451 | every probe carries the nonce drawn for one peer and goes to the public or the private address on that peer's record |
| BootstrapSeen.ServerSeen | src/lobby/rendezvous.c:379-434 | server steps keep the record of who was told what and who answered |
| BootstrapSeen.ApplySeen | src/netplay/lobby_client.c:364-522 | every step of the composed system keeps both invariants |
| BootstrapPaths.ChosenAnswered | src/netplay/lobby_client.c:255-268 | the chosen address of an acknowledged peer j was probed by this client and answered in slot j's name; it is the public or the advertised private address of slot j, and slot j's own client exactly if j is not 0 or the answerer is a host |
| BootstrapPaths.DirectPath | src/netplay/lobby_client.c:145-164 | a READY client's direct route leads to such an address; exactly when it is the peer itself |
| BootstrapPaths.AgreementOverRuns | src/netplay/lobby_client.c:461-480 | in every run from a fresh server, over any interleaving of polls, deliveries, losses, duplicates, reorderings and ticks: two READY clients of one session agree on match and kind of route, and for DIRECT each was answered from where its route leads, by the other or by a joiner at the private endpoint the host advertised |
| BootstrapPaths.DirectReachesPeer | src/netplay/lobby_client.c:340-354 | if nobody joins a host that advertises the joiner's own address, every direct route of two READY clients leads to the other client |
| BootstrapStray.BystanderAnswers | src/netplay/lobby_client.c:242-253 | a joiner without a slot answers a probe meant for the host in the name of slot 0 |
| BootstrapStray.StrayHappens | src/netplay/lobby_client.c:242-268 | a run from a fresh server to two READY clients with a DIRECT route, in which the joiner's leads to a bystander, for any host, joiner and bystander |
| BootstrapStray.MisleadsExactly | src/netplay/lobby_client.c:242-268 | some run lets a READY client's direct route to f lead to g, other than f, if and only if g is the private endpoint f advertised and has a port |
| LobbyCode.CodeRoundTrip | src/lobby/lobby_proto.c:188-254 | decode(encode(endpoint, id)) gives both back, for all values |
| LobbyCode.DecodesIffEncoded | src/lobby/lobby_proto.c:222-254 | a symbol string decodes to (endpoint, id) exactly when it is their encoding |
| LobbyCode.DecodesIffSpellsCode | src/lobby/lobby_proto.c:222-254 | a text decodes to (endpoint, id) exactly when it normalises to the spelling of their code |
| LobbyCode.SubstitutionRejected | src/lobby/lobby_proto.c:180-186 | replacing any one symbol of any code by another is rejected |
| LobbyCode.SwapRejected | src/lobby/lobby_proto.c:180-186 | swapping two different neighbouring symbols of any code is rejected |
| LobbyCode.ValidIffSyndromeZero | src/lobby/lobby_proto.c:236-251 | a code is valid exactly when the shift register ends at zero over its whole bit stream |
| LobbyCode.CrcLoop | src/lobby/lobby_proto.c:180-186 | the byte-and-bit loop computes Crc |
| LobbyCode.EncodeLoop | src/lobby/lobby_proto.c:188-211 | the buffer holds exactly the code's seventeen characters |
| LobbyCode.EncodeSymbol | src/lobby/lobby_proto.c:200-205 | five bits gathered one at a time are the symbol at that place |
| LobbyCode.DecodeLoop | src/lobby/lobby_proto.c:222-254 | the whole decoder equals Decode of the text before the first NUL, rejection by rejection |
| LobbyCode.DecodeBytes | src/lobby/lobby_proto.c:233-254 | regrouping, pad check and checksum equal DecodeSymbols |
| LobbyProto.RoundTrip | src/lobby/lobby_proto.c:25-176 | every packable message comes back from its packing followed by any bytes |
| LobbyProto.PrefixRefused | src/lobby/lobby_proto.c:89-176 | every strict prefix of a packing is refused |
| LobbyProto.Sizes | src/lobby/lobby_proto.c:25-87 | the size of every packing, at most LOBBY_MAX_PACKET; requests are exactly 32 bytes and everything the server sends of itself is smaller |
| LobbyProto.AcceptedPacks | src/lobby/lobby_proto.c:147-155 | whatever is accepted packs again, in no more bytes, and a payload lies inside the bytes given |
| LobbyProto.AcceptedIsCanonical | src/lobby/lobby_proto.c:89-176 | an accepted packet begins with exactly the packing of what was read from it, for every message, up to the padding of the two requests |
| LobbyBuffers.PackInto | src/lobby/lobby_proto.c:25-87 | the buffer's first n bytes are the packing; n is 0 exactly when the payload is too long |
| LobbyBuffers.UnpackFrom | src/lobby/lobby_proto.c:89-176 | the answer is Unpack of the first len bytes: no other byte matters, and every read is in bounds |
| LobbyBuffers.Wr32 | src/lobby/lobby_proto.c:17-18 | four bytes little-endian, the rest of the buffer untouched |
| LobbyBuffers.WrEp | src/lobby/lobby_proto.c:22 | an endpoint in six bytes, the rest of the buffer untouched |
| ArenaMath.Isqrt64 | src/arena/arena_math.h:26-35 | the bit-by-bit loop returns the floor of the square root of every 64-bit value, with every sum it compares inside 64 bits |
| ArenaMath.RootIs | src/arena/arena_math.h:26-35 | Isqrt is the floor of the root for every natural number |
| ArenaMath.LegBound | src/arena/arena_math.h:38-41 | neither component is longer than qlen2 of both |
| ArenaMath.UnitBound | src/arena/arena_math.h:18 | qdiv by one's own length stays within one |
| ArenaMath.DirectionBound | src/arena/arena_math.h:51-52 | table entries stay within one, and squares of sine and cosine add up to one within 4029 |
| ArenaMath.AtanMirrors | src/arena/arena_math.h:56-69 | iatan2 negates exactly under one mirror and takes the supplement under the other |
| ArenaTypes.InputRoundTrip | src/arena/arena_state.h:27-40 | packing an input and reading it back gives the clamped stick and the buttons |
| ArenaGap.AxisPush | src/arena/arena_sim.c:685-689 | one axis of the stand-gap pushout is exact up to a quarter above and one and a quarter below |
| ArenaGap.StandGapHolds | src/arena/arena_sim.c:685-689 | one pushout from inside the gap leaves qlen2 at least TUNE_BOMB_STAND_GAP - 2 |
| ArenaObject.Arena.constructor | src/arena/arena_sim.c:44-52 | a fresh arena is Init |
| ArenaObject.Arena.Reset | src/arena/arena_sim.c:23-42 | players, bombs and blasts are those of a reset round, scores kept |
| ArenaObject.Arena.FreeBomb | src/arena/arena_sim.c:97-101 | the least free bomb slot |
| ArenaObject.Arena.LetGo | src/arena/arena_sim.c:255-294 | the release of a held bomb: table and player as Release says |
| ArenaObject.Arena.Fan | src/arena/arena_sim.c:280-290 | the spread's loop: table and player as FanFrom says |
| ArenaObject.Arena.UseHands | src/arena/arena_sim.c:239-294 | grab, hold and release: table and player as Hands says |
| ArenaObject.Arena.LayBomb | src/arena/arena_sim.c:304-347 | setting a bomb: table and player as Lay says |
| ArenaObject.Arena.Turn | src/arena/arena_sim.c:139-402 | a player's turn changes that player and the table as PlayerTick says, nobody else |
| ArenaObject.Arena.PushAll | src/arena/arena_sim.c:462-477 | the nested pair loop equals PushFrom |
| ArenaObject.Arena.FlyOne | src/arena/arena_sim.c:488-547 | a thrown bomb's stage |
| ArenaObject.Arena.Skate | src/arena/arena_sim.c:595-638 | a sliding bomb's stage |
| ArenaObject.Arena.StandOffAll | src/arena/arena_sim.c:678-693 | the pushout loop equals StandScan |
| ArenaObject.Arena.AllBombs | src/arena/arena_sim.c:479-700 | the bomb loop equals BombsFrom |
| ArenaObject.Arena.Explode | src/arena/arena_sim.c:109-121 | detonation: blast, counter, slot, as Detonate says |
| ArenaObject.Arena.Chain | src/arena/arena_sim.c:713-722 | the chain loop equals ChainFrom |
| ArenaObject.Arena.HurtAll | src/arena/arena_sim.c:724-758 | the damage loop equals DamageFrom |
| ArenaObject.Arena.Phases | src/arena/arena_sim.c:410-452 | the phase switch equals PhaseStep |
| ArenaObject.Arena.RoundOver | src/arena/arena_sim.c:760-770 | the round-end loop equals Judge |
| ArenaObject.Arena.Advance | src/arena/arena_sim.c:407-773 | a whole tick on the object equals Tick on its value |
| ArenaFrames.PushShifts | src/arena/arena_sim.c:462-477 | player pushouts move players in the plane and change nothing else |
| ArenaFrames.BombsFrame | src/arena/arena_sim.c:479-700 | the bomb stage moves every bomb one step along its life cycle and only shifts players |
| ArenaOwn.FanOwn | src/arena/arena_sim.c:272-290 | the spread lays every extra bomb: a free slot is always found and the cap never exceeded |
| ArenaOwn.TurnOwn | src/arena/arena_sim.c:139-402 | a turn keeps counter, hand and table of its slot in agreement, and leaves the other slots' alone |
| ArenaOwn.CountedWhenDetonated | src/arena/arena_sim.c:119 | whoever owns a bomb that goes off has it counted: the guard on the counter never holds back |
| ArenaOwn.DamageOwn | src/arena/arena_sim.c:724-758 | a hit keeps the agreement, dropping the held bomb |
| ArenaOwn.CalmStep | src/arena/arena_sim.c:410-416 | outside play an empty field stays empty and only turns and pushouts happen |
| ArenaOwn.TickOwn | src/arena/arena_sim.c:407-773 | every tick keeps the agreement, for every input and phase |
| ArenaRuns.OwnershipHolds | src/arena/arena_sim.c:238-347 | over every run: live_bombs is the number of owned non-FREE bombs and at most 6, hands and HELD bombs match one to one, the dead and tumbling hold nothing, in play a holder's bomb bit is set |
| ArenaBounds.FlightConserves | src/arena/arena_sim.c:350-353 | one tick of free flight conserves 142y + v^2 - 71v exactly |
| ArenaBounds.ProjectBound | src/arena/arena_sim.c:217-225 | a direction scaled to at most 621 stays within TUNE_KNOCKBACK, table error and rounding included |
| ArenaBounds.TurnBody | src/arena/arena_sim.c:139-402 | a turn keeps height and speed in bounds, on either map |
| ArenaBounds.StruckBody | src/arena/arena_sim.c:735-742 | a hit keeps height and speed in bounds |
| ArenaBounds.TickBody | src/arena/arena_sim.c:407-773 | every tick keeps height and speed of every player in bounds, on either map |
| ArenaBox.PushReach | src/arena/arena_sim.c:462-477 | the six pair pushouts move a player by at most three radii |
| ArenaBox.TickBox | src/arena/arena_sim.c:407-773 | every tick on map 0 keeps players, bombs and blasts in a fixed box, and the walls never cross |
| ArenaFits.AtanSmall | src/arena/arena_math.h:56-69 | every word of iatan2 fits, for arguments up to 131072 |
| ArenaFits.TurnSmall | src/arena/arena_sim.c:139-402 | every word a player's turn computes fits: stick, heading, speed, throw, hands, flight, skid |
| ArenaFits.PushSmall | src/arena/arena_sim.c:462-477 | every word of the six pair pushouts fits, at the positions each one finds |
| ArenaFits.BombsSmall | src/arena/arena_sim.c:479-700 | every word of the bomb stage fits, bomb after bomb, pushouts included |
| ArenaFits.BlastsSmall | src/arena/arena_sim.c:706-758 | every word of the blast stage fits, hits included |
| ArenaRuns.WordsFit | src/arena/arena_sim.c:407-773 | from every reachable state of map 0, for every input, every word a tick computes fits the width the program gives it |
| ArenaRuns.NumbersHold | src/arena/arena_sim.c:80-93 | over every run on map 0: player height in [0, 9666], speeds of players and bombs, positions and wall distance in fixed ranges |
| ArenaLifetime.BombTickCloser | src/arena/arena_sim.c:480-699 | the bomb stage sets a bomb off or strictly lowers its rank |
| ArenaLifetime.TickCloser | src/arena/arena_sim.c:407-773 | every tick frees a bomb that is out of the hand or strictly lowers its rank, for all inputs and phases |
| ArenaLifetime.BombLifetime | src/arena/arena_sim.c:480-704 | a bomb out of the hand is FREE at the end of some tick within its rank, at most TUNE_FUSE_TICKS + 1 |
| ArenaRuns.LifetimeHolds | src/arena/arena_sim.c:480-704 | the same over every run from the initial state |
| ArenaMatch.TickScore | src/arena/arena_sim.c:760-770 | every tick keeps the score in order: below three during a round, at most one at three after it |
| ArenaRuns.ScoreHolds | src/arena/arena_sim.c:760-770 | the same over every run |
| ArenaMatch.WonForever | src/arena/arena_sim.c:427-449 | once won, the match stays in ROUND_END with the same score whatever follows |
| ArenaMatch.RoundToLastCount | src/arena/arena_sim.c:427-449 | a ROUND_END just entered without a winner is, 359 ticks later, on the last tick of the countdown with every bomb free and every match player up |
| ArenaMatch.PlayTick | src/arena/arena_sim.c:411-416 | the countdown's last tick starts play with every match player up, the field empty after it exactly if no match player grabs or sets on that tick |
| ArenaMatch.RoundToPlay | src/arena/arena_sim.c:410-452 | from ROUND_END to PLAY in exactly 360 ticks, with the exact condition for an empty field |
| ArenaMatch.FieldMayFill | src/arena/arena_sim.c:304-347 | a concrete input after which the field is not empty at the first tick of play |
| ArenaMatch.OpeningMayFill | src/arena/arena_sim.c:304-347 | the same reached from the start of any match: set pressed on the tick that starts play |
| ArenaHits.TurnClock | src/arena/arena_sim.c:356-400 | what a turn does to state, timer and hand |
| ArenaHits.TickWounds | src/arena/arena_sim.c:724-758 | in one tick a player is untouched or struck exactly once while open to it |
| ArenaHits.TickShield | src/arena/arena_sim.c:724-758 | a tick wears the shield by at most one; a hit needs it worn out and renews it |
| ArenaHits.HitsAreSpaced | src/arena/arena_sim.c:724-742 | two hits on one player are at least TUNE_TUMBLE_TICKS + 1 ticks apart |
| ArenaHits.HitsAreSpacedWithoutGrab | src/arena/arena_sim.c:241-254 | at least TUNE_TUMBLE_TICKS + TUNE_INVULN_TICKS apart if the player grabs no bomb in between |
| ArenaRuns.SpacingHolds | src/arena/arena_sim.c:724-742 | both spacings over every run from the initial state |
| ArenaRuns.TickIgnoresRng | src/arena/arena_sim.c:407-773 | a tick neither reads nor writes the generator |
| Fnv.StepKeepsDifference | src/arena/arena_state.h:120-125 | one FNV-1a step is a bijection of the accumulator |
| Fnv.StepSeesByte | src/arena/arena_state.h:120-125 | and different bytes give different accumulators |
| Fnv.OneByteMatters | src/arena/arena_state.h:120-125 | byte strings that differ in exactly one place have different hashes |
| Fnv.HashLoop | src/arena/arena_state.h:120-125 | the accumulating loop computes Hash |
| ArenaBytes.StateBytes | src/arena/arena_state.h:50-108 | the state's layout is 944 bytes |
| ArenaBytes.FlipChangesHash | src/netplay/sync_session.c:244-247 | flipping the generator's lowest bit always changes the state's hash |
| SyncSession.Live.DoAdvance | src/netplay/sync_session.c:227-252 | the advance: record, tick, corruption, ring, as AdvanceStep says |
| SyncSession.Live.Frame | src/netplay/sync_session.c:214-255 | the event loop equals EventsFrom: state, history and ring, plus what was saved and how many fresh ticks ran |
| SyncSession.Live.Corrupt | src/netplay/sync_session.c:144 | only the pending flag changes |
| SyncDriver.ForwardKeeps | src/netplay/sync_session.c:227-252 | an advance keeps the history's explanation of state, snapshots and ring |
| SyncDriver.MoveKeeps | src/netplay/sync_session.c:214-255 | every driver move keeps it |
| SyncDriver.RollbackExplains | src/netplay/sync_session.c:214-252 | after any run without corruption the live state is the fold of arena_tick over the recorded inputs, and every ring entry up to the front is the hash of that fold's prefix |
| ReplayBundle.Replay | tools/replay_bundle.c:107-118 | entry t is the hash after t recorded ticks from the initial state, for every t up to the count |
| ReplayBundle.FirstDivergence | tools/replay_bundle.c:122-134 | the least disagreeing tick of the ring with both hashes, or 0 exactly when none disagrees |
| ReplayBundle.EntryVerdict | tools/replay_bundle.c:127-129 | a ring entry disagrees with the replay exactly if the live session was wrong after that tick |
| ReplayBundle.ReplayVerdict | tools/replay_bundle.c:120-134 | the tool's verdict for any number of corruptions and rollbacks: the least wrong tick still in the ring, or none |
| ReplayBundle.ExactLocalisation | tools/replay_bundle.c:107-134 | one corrupted fresh advance from tick T, never rolled back past, is named as T + 1 while the ring holds it |
| ReplayBundle.RollbackHeals | src/netplay/sync_session.c:224-226 | a load to T or before followed by an advance removes the corruption from the history |
| ReplayBundle.HonestIsConsistent | tools/replay_bundle.c:205-208 | an honest session at rest is CONSISTENT |
| ReplayBundle.CulpritIsRight | tools/replay_bundle.c:209-216 | of two bundles, the peer named is exactly the one whose simulation drifted |
| NetAdapter.Adapter.Send | src/netplay/net_adapter.c:68-95 | the draws decide: a lost packet is counted and gone, a delayed one is queued if there is room, anything else is sent at once and an overflow counted; sent, lost and queued together are all ever accepted |
| NetAdapter.Adapter.Park | src/netplay/net_adapter.c:86-94 | the queue grows by the packet at its end with its due time, and a reordering one delays the packet before it by a millisecond |
| NetAdapter.Adapter.FlushDue | src/netplay/net_adapter.c:97-111 | exactly the due packets are sent, exactly the rest stays, both in queue order |
| NetAdapter.Adapter.Compact | src/netplay/net_adapter.c:100-110 | the in-place compaction loop |
| NetAdapter.FlushPartitions | src/netplay/net_adapter.c:97-111 | a flush loses nothing and sends nothing twice |
| NetAdapter.FlushKeepsOrder | src/netplay/net_adapter.c:97-111 | what is sent and what stays both keep the queue's order |
| NetAdapter.WaitingIsNotDue | src/netplay/net_adapter.c:97-111 | what stays is not due |
| NetAdapter.Overtakes | src/netplay/net_adapter.c:92-94 | what one flush makes of a reordered pair: out of order only if the later is due and the earlier is not |
| NetAdapter.DueIsTimely | src/netplay/net_adapter.c:102-103 | across the clock's wrap, due means the true time has come |
| NetAdapter.Adapter.Push | src/netplay/net_adapter.c:143-155 | the ring holds the newest at most sixteen untaken packets in order |
| NetAdapter.Adapter.Take | src/netplay/net_adapter.c:231-241 | the oldest untaken packet, exactly when there is one and it fits; otherwise nothing changes |

## Left out

- Sockets, clocks, files, random seeding and printing: packets, times, seeds and
  drawn numbers are parameters.
- NAT behaviour: a packet's source address is the address its sender owns.
- Senders that lie: the server's own results hold for any sender, the bootstrap's
  for honest clients.
- AgreementOverRuns: does not cover sessions reaped during the bootstrap, nor a
  second client on an address already used.
- ClientPost in the bootstrap hands over one ringed packet per step; the loop of
  lobby_post_poll, which is PostPoll, is that step repeated.
- GekkoNet: its scheduling, prediction and network protocol are reduced to the
  driver of sync_driver.dfy; the session's connection flags and statistics are
  not modelled.
- RollbackExplains: states the live state over the recorded inputs up to the
  record's 36000 ticks, and assumes the 32-bit tick counter has not wrapped.
- Bundle files: reading and writing them, the field dump around a divergence and
  the comparison of two input histories.
- TickBox: stated for map 0 only; map 1's pillars are in the model, and the other
  simulation results hold there too.
- WordsFit: map 0 only, like the box it rests on; a pillar's pushout is not among
  its words.
- AtanMirrors: states symmetry only, not accuracy.
- net_adapter's routing, wrapping of game payloads and memory contract with
  GekkoNet: only its queues are modelled.
- arena_net_version and the scripted match behind it: a version is a number.
- The objects hold their tables in arrays whose entries (sessions, players, bombs,
  peers) are values, so aliasing of parts of one entry is not captured.
- Progress of the bootstrap under loss: only safety is stated.
- The viewer, the camera, tuning reports and every other tool.
