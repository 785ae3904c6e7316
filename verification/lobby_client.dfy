// The lobby client as a function of (client, clock, incoming messages),
// following src/netplay/lobby_client.c: readiness predicates, the receive
// dispatch, and the per-poll duties in their order.

module LobbyClient {
  import opened Basics
  import opened LobbyTypes
  import LobbyCode
  import XorShift

  const RETRY_MS := 500
  const RETRY_MAX := 10
  const PUNCH_PERIOD_MS := 250
  const PUNCH_BUDGET_MS := 3000
  const TIMEOUT_MS := 30000
  const KEEPALIVE_MS := 10000
  const DRAIN_MAX: nat := 128

  datatype Stage = Idle | Registering | Joining | WaitingPeers | Punching | AwaitingStart | Ready | Failed

  function Order(st: Stage): nat {
    match st
    case Idle => 0 case Registering => 1 case Joining => 2 case WaitingPeers => 3
    case Punching => 4 case AwaitingStart => 5 case Ready => 6 case Failed => 7
  }

  function StageName(st: Stage): string {
    match st
    case Registering => "REGISTERING"
    case Joining => "JOINING"
    case WaitingPeers => "WAITING_PEERS"
    case Punching => "PUNCHING"
    case AwaitingStart => "AWAITING_START"
    case Ready => "READY"
    case Failed => "FAILED"
    case Idle => "IDLE"
  }

  function RejectName(reason: u8): string {
    if reason == REJ_BAD_SESSION then "BAD_SESSION"
    else if reason == REJ_FULL then "FULL"
    else if reason == REJ_VERSION_MISMATCH then "VERSION"
    else if reason == REJ_EXPIRED then "EXPIRED"
    else "UNKNOWN"
  }

  /** What the client holds about one slot; route is -1 while undecided. */
  datatype Peer = Peer(
    present: bool, acked: bool, reported: bool,
    pub: Endpoint, priv: Endpoint, chosen: Endpoint,
    nonce: bv32, punchBegin: u32, lastPunch: u32, lastReport: u32,
    route: int, punchAlt: bool)

  const NO_PEER := Peer(false, false, false, NO_ENDPOINT, NO_ENDPOINT, NO_ENDPOINT, 0, 0, 0, 0, -1, false)

  datatype NetRoute = NoRoute | Direct(ep: Endpoint) | Relayed

  datatype Result = Result(
    localSlot: Slot, numPlayers: u8, arenaId: u8, inputDelay: u8, sessionId: u16, seed: u32,
    route: Quad<NetRoute>, server: Endpoint)

  /** Which pairs the server has decided. */
  datatype Known = Known(k0: Quad<bool>, k1: Quad<bool>, k2: Quad<bool>, k3: Quad<bool>) {
    function Row(a: Slot): Quad<bool> {
      match a case 0 => k0 case 1 => k1 case 2 => k2 case _ => k3
    }

    predicate At(a: Slot, b: Slot) {
      Row(a).At(b)
    }

    function Mark(a: Slot, b: Slot): (k: Known)
      ensures forall c: Slot, d: Slot :: k.At(c, d) == ((c == a && d == b) || At(c, d))
    {
      var row := Row(a).With(b, true);
      match a
      case 0 => this.(k0 := row)
      case 1 => this.(k1 := row)
      case 2 => this.(k2 := row)
      case _ => this.(k3 := row)
    }
  }

  const NOTHING_KNOWN := Known(Same(false), Same(false), Same(false), Same(false))

  datatype Client = Client(
    stage: Stage, isHost: bool, forcedRelay: bool, server: Endpoint, privateEp: Endpoint,
    sessionId: u16, localSlot: Slot, numPlayers: u8, netVersion: u32,
    seed: u32, arenaId: u8, inputDelay: u8,
    beginMs: u32, lastSend: u32, rng: bv32, retries: u8, lastKeepalive: u32, lastStart: u32,
    startSeen: bool, hostStartSent: bool, known: Known, peer: Quad<Peer>,
    result: Option<Result>, code: string, failStage: string)

  // ------------------------------------------------------------------ sends

  function Params(c: Client): StartParams {
    StartParams(c.seed, c.arenaId, c.numPlayers, c.inputDelay)
  }

  function HostReqOf(c: Client): Out {
    Out(c.server, HostReq(c.netVersion, c.numPlayers, c.privateEp))
  }

  function JoinReqOf(c: Client): Out {
    Out(c.server, JoinReq(c.sessionId, c.netVersion, c.privateEp))
  }

  function ReportOf(c: Client, other: Slot, ok: u8): Out {
    Out(c.server, PunchReport(c.sessionId, Min(c.localSlot, other), Max(c.localSlot, other), ok))
  }

  function StartAckOf(c: Client): Out {
    Out(c.server, StartAck(c.sessionId, c.localSlot))
  }

  // ------------------------------------------------------------- predicates

  predicate AllPeersPresent(c: Client) {
    c.numPlayers != 0 && forall i: Slot :: i < c.numPlayers ==> c.peer.At(i).present
  }

  predicate LocalRoutesDecided(c: Client) {
    c.numPlayers != 0 && forall i: Slot :: i < c.numPlayers && i != c.localSlot ==> c.peer.At(i).route >= 0
  }

  predicate AllPairsDecided(c: Client) {
    c.numPlayers >= 2 && forall a: Slot, b: Slot :: a < b < c.numPlayers ==> c.known.At(a, b)
  }

  function RouteTo(c: Client, i: Slot): NetRoute {
    if i == c.localSlot || i >= c.numPlayers then NoRoute
    else if c.peer.At(i).route == ROUTE_DIRECT then Direct(c.peer.At(i).chosen)
    else Relayed
  }

  function FillResult(c: Client): Result {
    Result(c.localSlot, c.numPlayers, c.arenaId, c.inputDelay, c.sessionId, c.seed,
           Quad(RouteTo(c, 0), RouteTo(c, 1), RouteTo(c, 2), RouteTo(c, 3)), c.server)
  }

  function Fail(c: Client, text: string): Client {
    c.(stage := Failed, failStage := text)
  }

  // ---------------------------------------------------------------- receive

  function OnHostResp(c: Client, id: u16): Client {
    if c.stage != Registering || id == 0 then c
    else c.(sessionId := id, code := LobbyCode.Encode(c.server, id), localSlot := 0,
            peer := c.peer.With(0, c.peer.At(0).(present := true)), retries := 0, stage := WaitingPeers)
  }

  function OnJoinResp(c: Client, slot: u8, np: u8): Client {
    if c.stage != Joining || slot >= 4 || np < 2 || np > 4 then c
    else c.(localSlot := slot, numPlayers := np,
            peer := c.peer.With(slot, c.peer.At(slot).(present := true)), retries := 0, stage := WaitingPeers)
  }

  /** next_rng: the state is never used while zero. */
  function NextRng(c: Client): bv32 {
    XorShift.Next(if c.rng != 0 then c.rng else 1)
  }

  function OnPeerIntro(c: Client, now: u32, slot: u8, pub: Endpoint, priv: Endpoint): Client {
    if Order(c.stage) < Order(Registering) || Order(c.stage) > Order(AwaitingStart)
       || slot >= 4 || slot == c.localSlot then c
    else
      var p := c.peer.At(slot).(pub := pub, priv := priv);
      if p.present then c.(peer := c.peer.With(slot, p))
      else
        var intro := p.(present := true, route := -1, nonce := NextRng(c), punchBegin := now,
                        lastPunch := Elapsed(now, PUNCH_PERIOD_MS));
        c.(rng := NextRng(c), peer := c.peer.With(slot, intro))
  }

  function OnPunch(c: Client, from: Endpoint, id: u16, nonce: u32): seq<Out> {
    if id != c.sessionId || c.sessionId == 0 then []
    else [Out(from, PunchAck(c.sessionId, c.localSlot, nonce))]
  }

  predicate AckMatches(c: Client, id: u16, slot: u8, nonce: u32) {
    && id == c.sessionId && c.sessionId != 0
    && slot < 4 && slot != c.localSlot
    && c.peer.At(slot).present && c.peer.At(slot).nonce != 0 && nonce == Word(c.peer.At(slot).nonce)
    && !c.peer.At(slot).acked
  }

  function OnPunchAck(c: Client, now: u32, from: Endpoint, id: u16, slot: u8, nonce: u32): (Client, seq<Out>) {
    if !AckMatches(c, id, slot, nonce) then (c, [])
    else
      (c.(peer := c.peer.With(slot, c.peer.At(slot).(acked := true, chosen := from, reported := true,
        lastReport := now))),
       [ReportOf(c, slot, 1)])
  }

  function OnPairRoute(c: Client, a: u8, b: u8, route: u8): Client {
    if a >= 4 || b >= 4 || a == b || route > ROUTE_RELAY then c
    else
      var d := c.(known := c.known.Mark(a, b).Mark(b, a));
      if a == c.localSlot then d.(peer := d.peer.With(b, d.peer.At(b).(route := route)))
      else if b == c.localSlot then d.(peer := d.peer.With(a, d.peer.At(a).(route := route)))
      else d
  }

  function OnStart(c: Client, p: StartParams): (Client, seq<Out>) {
    if Order(c.stage) < Order(WaitingPeers) || Order(c.stage) > Order(AwaitingStart) then (c, [])
    else if c.isHost then
      if p != Params(c) then (Fail(c, "START_ECHO"), [])
      else (c.(startSeen := true), [StartAckOf(c)])
    else if p.numPlayers < 2 || p.numPlayers > 4 then (c, [])
    else
      var d := c.(seed := p.seed, arenaId := p.arenaId, numPlayers := p.numPlayers, inputDelay := p.inputDelay,
                  startSeen := true);
      (d, [StartAckOf(d)])
  }

  /** handle_msg. */
  function Receive(c: Client, now: u32, from: Endpoint, m: Msg): (Client, seq<Out>) {
    match m
    case HostResp(id) => (OnHostResp(c, id), [])
    case JoinResp(slot, np) => (OnJoinResp(c, slot, np), [])
    case Reject(reason) =>
      if c.stage != Joining && c.stage != Registering then (c, [])
      else (Fail(c, "REJECTED:" + RejectName(reason)), [])
    case PeerIntro(slot, pub, priv) => (OnPeerIntro(c, now, slot, pub, priv), [])
    case Punch(id, _, nonce) => (c, OnPunch(c, from, id, nonce))
    case PunchAck(id, slot, nonce) => OnPunchAck(c, now, from, id, slot, nonce)
    case PairRoute(a, b, route) => (OnPairRoute(c, a, b, route), [])
    case Start(p) => OnStart(c, p)
    case _ => (c, [])
  }

  /** A received datagram that unpacked. */
  datatype In = In(from: Endpoint, msg: Msg)

  /** The drain: messages in order, stopping at a failure. */
  function Drain(c: Client, now: u32, inbox: seq<In>): (Client, seq<Out>)
    decreases |inbox|
  {
    if inbox == [] || c.stage == Failed then (c, [])
    else
      var (d, out) := Receive(c, now, inbox[0].from, inbox[0].msg);
      var (e, more) := Drain(d, now, inbox[1..]);
      (e, out + more)
  }

  // ----------------------------------------------------------------- duties

  /** enter_punching: every budget starts here, not at the introduction. */
  function Aim(p: Peer, now: u32): Peer {
    p.(punchBegin := now, lastPunch := Elapsed(now, PUNCH_PERIOD_MS), lastReport := now)
  }

  function AimFrom(c: Client, now: u32, i: nat): Client
    decreases 4 - i
  {
    if i >= 4 || i >= c.numPlayers then c
    else if i == c.localSlot then AimFrom(c, now, i + 1)
    else AimFrom(c.(peer := c.peer.With(i, Aim(c.peer.At(i), now))), now, i + 1)
  }

  function EnterPunching(c: Client, now: u32): Client {
    AimFrom(c.(stage := Punching), now, 0)
  }

  /** Where the next probe goes: private and public alternate, skipping an
      address without a port. */
  function ProbeTarget(p: Peer): Endpoint {
    var dest := if p.punchAlt then p.pub else p.priv;
    if dest.port != 0 then dest else if p.punchAlt then p.priv else p.pub
  }

  /** One peer's share of the PUNCHING duty. */
  function PunchPeer(c: Client, now: u32, i: Slot): (Client, seq<Out>) {
    var p := c.peer.At(i);
    if i == c.localSlot || p.route >= 0 then (c, [])
    else if p.reported then
      if Elapsed(now, p.lastReport) >= RETRY_MS then
        (c.(peer := c.peer.With(i, p.(lastReport := now))), [ReportOf(c, i, if p.acked then 1 else 0)])
      else (c, [])
    else if c.forcedRelay || Elapsed(now, p.punchBegin) > PUNCH_BUDGET_MS then
      (c.(peer := c.peer.With(i, p.(reported := true, lastReport := now))), [ReportOf(c, i, 0)])
    else if Elapsed(now, p.lastPunch) >= PUNCH_PERIOD_MS then
      var q := p.(punchAlt := !p.punchAlt);
      var dest := ProbeTarget(p);
      if dest.port == 0 then (c.(peer := c.peer.With(i, q)), [])
      else (c.(peer := c.peer.With(i, q.(lastPunch := now))),
        [Out(dest, Punch(c.sessionId, c.localSlot, Word(p.nonce)))])
    else (c, [])
  }

  function PunchFrom(c: Client, now: u32, i: nat): (Client, seq<Out>)
    decreases 4 - i
  {
    if i >= 4 || i >= c.numPlayers then (c, [])
    else
      var (d, out) := PunchPeer(c, now, i);
      var (e, more) := PunchFrom(d, now, i + 1);
      (e, out + more)
  }

  /** 3. what the current stage owes. */
  function StageDuty(c: Client, now: u32): (Client, seq<Out>) {
    match c.stage
    case Registering =>
      if Elapsed(now, c.lastSend) < RETRY_MS then (c, [])
      else
        var d := c.(lastSend := now, retries := (c.retries + 1) % 0x100);
        if d.retries > RETRY_MAX then (Fail(d, StageName(d.stage)), []) else (d, [HostReqOf(d)])
    case Joining =>
      if Elapsed(now, c.lastSend) < RETRY_MS then (c, [])
      else
        var d := c.(lastSend := now, retries := (c.retries + 1) % 0x100);
        if d.retries > RETRY_MAX then (Fail(d, StageName(d.stage)), []) else (d, [JoinReqOf(d)])
    case WaitingPeers =>
      if AllPeersPresent(c) then (EnterPunching(c, now), [])
      else if Elapsed(now, c.lastSend) < RETRY_MS then (c, [])
      else
        var d := c.(lastSend := now);
        (d, [if d.isHost then HostReqOf(d) else JoinReqOf(d)])
    case Punching => PunchFrom(c, now, 0)
    case _ => (c, [])
  }

  /** 4. the host's START once the whole mesh is decided, until it is echoed. */
  function HostDuty(c: Client, now: u32): (Client, seq<Out>) {
    if c.isHost && c.sessionId != 0 && !c.startSeen && Order(c.stage) >= Order(WaitingPeers) && AllPairsDecided(c)
       && (!c.hostStartSent || Elapsed(now, c.lastStart) >= RETRY_MS)
    then (c.(hostStartSent := true, lastStart := now), [Out(c.server, Start(Params(c)))])
    else (c, [])
  }

  /** 5. all local routes in: READY with a START, else wait for one. */
  function Finish(c: Client): Client {
    if (c.stage == Punching || c.stage == AwaitingStart) && LocalRoutesDecided(c) then
      if c.startSeen then c.(result := Some(FillResult(c)), stage := Ready)
      else c.(stage := AwaitingStart)
    else c
  }

  /** 6. keepalive. */
  function KeepDuty(c: Client, now: u32): (Client, seq<Out>) {
    if c.sessionId == 0 || Order(c.stage) < Order(WaitingPeers) || Order(c.stage) > Order(AwaitingStart) then (c, [])
    else if c.lastKeepalive == 0 then (c.(lastKeepalive := now), [])
    else if Elapsed(now, c.lastKeepalive) >= KEEPALIVE_MS then
      (c.(lastKeepalive := now), [Out(c.server, Keepalive(c.sessionId, c.localSlot))])
    else (c, [])
  }

  function Duties(c: Client, now: u32): (Client, seq<Out>) {
    if Elapsed(now, c.beginMs) > TIMEOUT_MS then (Fail(c, StageName(c.stage)), [])
    else
      var (d, out3) := StageDuty(c, now);
      if d.stage == Failed then (d, out3)
      else
        var (e, out4) := HostDuty(d, now);
        var (f, out6) := KeepDuty(Finish(e), now);
        (f, out3 + out4 + out6)
  }

  predicate Active(c: Client) {
    c.stage != Ready && c.stage != Failed && c.stage != Idle
  }

  /** lobby_poll: drain at most 128 datagrams, then the duties. */
  function Poll(c: Client, now: u32, inbox: seq<In>): (Client, seq<Out>) {
    if !Active(c) then (c, [])
    else
      var (d, out) := Drain(c, now, if |inbox| <= DRAIN_MAX then inbox else inbox[..DRAIN_MAX]);
      if d.stage == Failed then (d, out)
      else
        var (e, more) := Duties(d, now);
        (e, out + more)
  }

  /** lobby_post_poll's answer to one ringed datagram. */
  function PostReceive(c: Client, from: Endpoint, m: Msg): seq<Out> {
    if c.stage != Ready then []
    else if m.Start? then [StartAckOf(c)]
    else if m.Punch? && m.sessionId == c.sessionId then [Out(from, PunchAck(c.sessionId, c.localSlot, m.nonce))]
    else []
  }

  // ------------------------------------------------------------------ begin

  function Blank(now: u32, rng: bv32, server: Endpoint, privateEp: Endpoint, netVersion: u32): Client {
    Client(Idle, false, false, server, privateEp, 0, 0, 0, netVersion, 0, 0, 0, now, now,
           if rng != 0 then rng else 1, 0, 0, 0, false, false, NOTHING_KNOWN, Same(NO_PEER), None, "", "")
  }

  /** lobby_host_begin; None for a player count outside 2..4. */
  function HostBegin(now: u32, rng: bv32, server: Endpoint, privateEp: Endpoint, netVersion: u32, p: StartParams)
    : Option<(Client, seq<Out>)>
  {
    if p.numPlayers < 2 || p.numPlayers > 4 then None
    else
      var c := Hosting(Blank(now, rng, server, privateEp, netVersion), p);
      Some((c, [HostReqOf(c)]))
  }

  function Hosting(c: Client, p: StartParams): Client {
    c.(isHost := true, numPlayers := p.numPlayers, seed := p.seed, arenaId := p.arenaId,
       inputDelay := p.inputDelay, stage := Registering)
  }

  /** lobby_join_begin; None when the code does not decode. */
  function JoinBegin(now: u32, rng: bv32, privateEp: Endpoint, netVersion: u32, code: string)
    : Option<(Client, seq<Out>)>
  {
    match LobbyCode.Decode(code)
    case None => None
    case Some(pair) =>
      var c := Blank(now, rng, pair.0, privateEp, netVersion).(sessionId := pair.1, stage := Joining);
      Some((c, [JoinReqOf(c)]))
  }

  function SetForcedRelay(c: Client): Client {
    c.(forcedRelay := true)
  }
}
