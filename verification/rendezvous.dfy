// The rendezvous server as a function of (table, clock, one message).
// Section by section it follows src/lobby/rendezvous.c: session table, rate
// limiting, fan-out, the seven handlers, dispatch and the periodic tick.

module Rendezvous {
  import opened Basics
  import opened LobbyTypes
  import opened Scan
  import XorShift

  const MAX_SESSIONS := 64
  const RATE_BUCKETS := 256
  const RATE_PER_SEC := 20
  const RATE_BURST := 40
  const LOBBY_EXPIRY_MS := 600000
  const STARTED_EXPIRY_MS := 30000
  const RELAY_EXPIRY_MS := 60000
  const START_REFAN_MS := 500
  const ID_TRIES: nat := 4096

  datatype Phase = Free | Lobby | Starting | Running

  datatype Peer = Peer(used: bool, startAcked: bool, publicEp: Endpoint, privateEp: Endpoint, lastSeen: u32)

  /** Row a, column b: a's verdict on b (-1 unseen, 0 failed, 1 open) and the
      server's route for the pair, meaningful once routeSent. */
  datatype Cell = Cell(punch: int, routeSent: bool, route: u8)

  const NO_PEER := Peer(false, false, NO_ENDPOINT, NO_ENDPOINT, 0)
  const NO_CELL := Cell(-1, false, 0)

  type Row = Quad<Cell>

  /** The pair matrix, one row per reporting slot. */
  datatype Grid = Grid(r0: Row, r1: Row, r2: Row, r3: Row) {
    function RowAt(a: Slot): Row {
      match a case 0 => r0 case 1 => r1 case 2 => r2 case _ => r3
    }

    function At(a: Slot, b: Slot): Cell {
      RowAt(a).At(b)
    }

    function With(a: Slot, b: Slot, c: Cell): (g: Grid)
      ensures forall d: Slot, e: Slot :: g.At(d, e) == if d == a && e == b then c else At(d, e)
    {
      var row := RowAt(a).With(b, c);
      match a
      case 0 => this.(r0 := row)
      case 1 => this.(r1 := row)
      case 2 => this.(r2 := row)
      case _ => this.(r3 := row)
    }
  }

  const NO_CELLS := Grid(Same(NO_CELL), Same(NO_CELL), Same(NO_CELL), Same(NO_CELL))

  datatype Session = Session(
    id: u16, phase: Phase, numPlayers: u8, joined: u8, netVersion: u32,
    pairs: Grid, peers: Quad<Peer>, start: Option<StartParams>,
    lastActivity: u32, started: u32, lastRefan: u32, lastRelay: u32)

  /** The state of a freed and of a freshly allocated slot: all zero except the verdicts. */
  const CLEARED := Session(0, Free, 0, 0, 0, NO_CELLS, Same(NO_PEER), None, 0, 0, 0, 0)

  datatype Bucket = Bucket(tokensMilli: u32, lastMs: u32)

  datatype Server = Server(sessions: seq<Session>, rate: seq<Bucket>, rng: bv32, relayForwards: u32)

  // ---------------------------------------------------------------- helpers

  predicate HasId(s: Session, id: u16) {
    s.phase != Free && s.id == id
  }

  /** find_session: id 0 never names a session. */
  function FindSession(ss: seq<Session>, id: u16): (r: Option<nat>)
    ensures r.Some? ==> r.value < |ss| && id != 0 && HasId(ss[r.value], id)
    ensures r.Some? ==> forall j :: 0 <= j < r.value ==> !HasId(ss[j], id)
    ensures r.None? && id != 0 ==> forall j :: 0 <= j < |ss| ==> !HasId(ss[j], id)
  {
    if id == 0 then None else First(ss, (s: Session) => HasId(s, id))
  }

  predicate Owns(p: Peer, from: Endpoint) {
    p.used && p.publicEp == from
  }

  /** peer_of: the slot that owns this source address. */
  function PeerOf(s: Session, from: Endpoint): (r: Option<nat>)
    ensures r.Some? ==> r.value < 4 && Owns(s.peers.At(r.value), from)
    ensures r.Some? ==> forall k: Slot :: k < r.value ==> !Owns(s.peers.At(k), from)
    ensures r.None? ==> forall k: Slot :: !Owns(s.peers.At(k), from)
  {
    FirstSlotFrom(s.peers, (p: Peer) => Owns(p, from), 0)
  }

  /** The bookkeeping every accepted member packet does. */
  function Touch(s: Session, who: Slot, now: u32): Session {
    s.(lastActivity := now, peers := s.peers.With(who, s.peers.At(who).(lastSeen := now)))
  }

  // ---------------------------------------------------------- rate limiting

  function RateTake(b: Bucket, now: u32): (Bucket, bool) {
    var cap := RATE_BURST * 1000;
    var dt := Elapsed(now, b.lastMs);
    var filled := if dt > cap / RATE_PER_SEC then cap
                  else Min(b.tokensMilli + dt * RATE_PER_SEC, cap);
    if filled < 1000 then (Bucket(filled, now), false)
    else (Bucket(filled - 1000, now), true)
  }

  // ---------------------------------------------------------------- fan-out

  function Intro(s: Session, slot: Slot, to: Slot): Out {
    Out(s.peers.At(to).publicEp, PeerIntro(slot, s.peers.At(slot).publicEp, s.peers.At(slot).privateEp))
  }

  /** fan_peer_intro: the newcomer to every incumbent and every incumbent to the newcomer. */
  function FanIntro(s: Session, newcomer: Slot, i: nat): seq<Out>
    decreases 4 - i
  {
    if i >= 4 then []
    else if i == newcomer || !s.peers.At(i).used then FanIntro(s, newcomer, i + 1)
    else [Intro(s, newcomer, i), Intro(s, i, newcomer)] + FanIntro(s, newcomer, i + 1)
  }

  /** resend_intros_to: every other member again, but to one peer only. */
  function ResendIntros(s: Session, who: Slot, i: nat): seq<Out>
    decreases 4 - i
  {
    if i >= 4 then []
    else if i == who || !s.peers.At(i).used then ResendIntros(s, who, i + 1)
    else [Intro(s, i, who)] + ResendIntros(s, who, i + 1)
  }

  function FanStart(s: Session, onlyUnacked: bool, i: nat): seq<Out>
    decreases 4 - i
  {
    if i >= 4 || s.start.None? then []
    else if !s.peers.At(i).used || (onlyUnacked && s.peers.At(i).startAcked) then FanStart(s, onlyUnacked, i + 1)
    else [Out(s.peers.At(i).publicEp, Start(s.start.value))] + FanStart(s, onlyUnacked, i + 1)
  }

  function FanRoute(s: Session, m: Msg, i: nat): seq<Out>
    decreases 4 - i
  {
    if i >= 4 then []
    else if !s.peers.At(i).used then FanRoute(s, m, i + 1)
    else [Out(s.peers.At(i).publicEp, m)] + FanRoute(s, m, i + 1)
  }

  // --------------------------------------------------------------- handlers

  predicate HostsLobby(s: Session, from: Endpoint) {
    s.phase == Lobby && Owns(s.peers.At(0), from)
  }

  predicate HostsLive(s: Session, from: Endpoint) {
    s.phase != Free && Owns(s.peers.At(0), from)
  }

  /** The low half of the generator's state. */
  function Candidate(rng: bv32): u16 {
    (rng as u32) % 0x1_0000
  }

  /** Up to `tries` draws for an id that is nonzero and not in use. */
  function PickId(rng: bv32, ss: seq<Session>, tries: nat): (r: (bv32, Option<u16>))
    ensures r.1.Some? ==> r.1.value != 0 && forall j :: 0 <= j < |ss| ==> !HasId(ss[j], r.1.value)
    decreases tries
  {
    if tries == 0 then (rng, None)
    else
      var next := XorShift.Next(rng);
      var cand := Candidate(next);
      if cand != 0 && FindSession(ss, cand).None? then (next, Some(cand))
      else PickId(next, ss, tries - 1)
  }

  function OpenSession(id: u16, now: u32, from: Endpoint, m: Msg): Session
    requires m.HostReq?
  {
    CLEARED.(id := id, phase := Lobby,
             numPlayers := Min(Max(m.numPlayers, 2), 4),
             netVersion := m.netVersion,
             peers := CLEARED.peers.With(0, Peer(true, false, from, m.privateEp, now)),
             joined := 1, lastActivity := now)
  }

  function HandleHostReq(sv: Server, now: u32, from: Endpoint, m: Msg): (Server, seq<Out>)
    requires m.HostReq?
  {
    match First(sv.sessions, (s: Session) => HostsLobby(s, from))
    case Some(i) =>
      var s := Touch(sv.sessions[i], 0, now);
      (sv.(sessions := sv.sessions[i := s]), [Out(from, HostResp(s.id))] + ResendIntros(s, 0, 0))
    case None =>
      match First(sv.sessions, (s: Session) => s.phase == Free)
      case None => (sv, [Out(from, Reject(REJ_FULL))])
      case Some(i) =>
        var (rng, id) := PickId(sv.rng, sv.sessions, ID_TRIES);
        if id.None? then (sv.(rng := rng), [Out(from, Reject(REJ_FULL))])
        else (sv.(rng := rng, sessions := sv.sessions[i := OpenSession(id.value, now, from, m)]),
              [Out(from, HostResp(id.value))])
  }

  /** A new member takes slot k. */
  function Admit(s: Session, now: u32, from: Endpoint, k: Slot, privateEp: Endpoint): Session {
    s.(peers := s.peers.With(k, Peer(true, s.peers.At(k).startAcked, from, privateEp, now)),
       joined := (s.joined + 1) % 0x100, lastActivity := now)
  }

  /** One JOIN_REQ against the session it names. */
  function Join(s: Session, now: u32, from: Endpoint, m: Msg): (Session, seq<Out>)
    requires m.JoinReq?
  {
    if s.phase != Lobby then (s, [Out(from, Reject(REJ_EXPIRED))])
    else
      match PeerOf(s, from)
      case Some(k) =>
        var t := Touch(s, k, now);
        (t, [Out(from, JoinResp(k, t.numPlayers))] + ResendIntros(t, k, 0))
      case None =>
        if m.netVersion != s.netVersion then (s, [Out(from, Reject(REJ_VERSION_MISMATCH))])
        else if s.joined >= s.numPlayers then (s, [Out(from, Reject(REJ_FULL))])
        else
          match FirstSlotFrom(s.peers, (p: Peer) => !p.used, 0)
          case None => (s, [Out(from, Reject(REJ_FULL))])
          case Some(k) =>
            var t := Admit(s, now, from, k, m.privateEp);
            (t, [Out(from, JoinResp(k, t.numPlayers))] + FanIntro(t, k, 0))
  }

  /** Is this PUNCH_REPORT from one of the two members it is about? */
  predicate ReportAccepted(s: Session, from: Endpoint, m: Msg)
    requires m.PunchReport?
  {
    && PeerOf(s, from).Some?
    && m.slotA < 4 && m.slotB < 4 && m.slotA != m.slotB
    && (PeerOf(s, from).value == m.slotA || PeerOf(s, from).value == m.slotB)
    && s.peers.At(if PeerOf(s, from).value == m.slotA then m.slotB else m.slotA).used
  }

  function RouteOf(g: Grid, a: Slot, b: Slot): u8 {
    if g.At(a, b).punch != 0 && g.At(b, a).punch != 0 then ROUTE_DIRECT else ROUTE_RELAY
  }

  /** rep's verdict on oth is stored. */
  function Record(s: Session, now: u32, rep: Slot, oth: Slot, ok: u8): Session {
    Touch(s, rep, now).(pairs := s.pairs.With(rep, oth, s.pairs.At(rep, oth).(punch := if ok != 0 then 1 else 0)))
  }

  /** The pair's route is fixed, in both halves of the matrix. */
  function Decide(s: Session, now: u32, a: Slot, b: Slot): Session {
    var route := RouteOf(s.pairs, a, b);
    var g := s.pairs.With(a, b, s.pairs.At(a, b).(routeSent := true, route := route));
    s.(pairs := g.With(b, a, g.At(b, a).(routeSent := true, route := route)),
       lastRelay := if route == ROUTE_RELAY then now else s.lastRelay)
  }

  /** What a recorded report is answered with: nothing while the pair is
      one-sided, a replay to the reporter once decided, else the new verdict to all. */
  function Arbitrate(s: Session, now: u32, from: Endpoint, a: Slot, b: Slot): (Session, seq<Out>) {
    if s.pairs.At(a, b).punch < 0 || s.pairs.At(b, a).punch < 0 then (s, [])
    else if s.pairs.At(a, b).routeSent then
      (s, [Out(from, PairRoute(a, b, s.pairs.At(a, b).route))])
    else
      var t := Decide(s, now, a, b);
      (t, FanRoute(t, PairRoute(a, b, RouteOf(s.pairs, a, b)), 0))
  }

  function Report(s: Session, now: u32, from: Endpoint, m: Msg): (Session, seq<Out>)
    requires m.PunchReport?
  {
    if !ReportAccepted(s, from, m) then (s, [])
    else
      var rep: Slot := PeerOf(s, from).value;
      var oth: Slot := if rep == m.slotA then m.slotB else m.slotA;
      Arbitrate(Record(s, now, rep, oth, m.ok), now, from, Min(m.slotA, m.slotB), Max(m.slotA, m.slotB))
  }

  function BeginStart(s: Session, now: u32, p: StartParams): (Session, seq<Out>) {
    if s.phase == Running then (s, [])
    else
      var first := s.phase == Lobby;
      var t := Touch(s, 0, now).(start := Some(p), lastRefan := now,
                                 phase := if first then Starting else s.phase,
                                 started := if first then now else s.started,
                                 lastRelay := if first then now else s.lastRelay);
      (t, FanStart(t, !first, 0))
  }

  predicate AllAcked(ps: Quad<Peer>) {
    forall k: Slot :: ps.At(k).used ==> ps.At(k).startAcked
  }

  function Ack(s: Session, now: u32, from: Endpoint, m: Msg): Session
    requires m.StartAck?
  {
    match PeerOf(s, from)
    case None => s
    case Some(k) =>
      if m.slot != k then s
      else
        var t := Touch(s, k, now);
        if t.phase != Starting then t
        else
          var u := t.(peers := t.peers.With(k, t.peers.At(k).(startAcked := true)));
          if AllAcked(u.peers) then u.(phase := Running) else u
  }

  function Keep(s: Session, now: u32, from: Endpoint): Session {
    match PeerOf(s, from)
    case None => s
    case Some(k) => Touch(s, k, now)
  }

  /** May this RELAY be forwarded: the sender owns its slot and the target exists. */
  predicate RelayAccepted(s: Session, from: Endpoint, m: Msg)
    requires m.Relay?
  {
    m.fromSlot < 4 && m.toSlot < 4 && Owns(s.peers.At(m.fromSlot), from) && s.peers.At(m.toSlot).used
  }

  function Forward(s: Session, now: u32, m: Msg): Session
    requires m.Relay? && m.fromSlot < 4
  {
    Touch(s, m.fromSlot, now).(lastRelay := now)
  }

  // --------------------------------------------------------------- dispatch

  function Put(sv: Server, i: nat, r: (Session, seq<Out>)): (Server, seq<Out>)
    requires i < |sv.sessions|
  {
    (sv.(sessions := sv.sessions[i := r.0]), r.1)
  }

  /** The handlers behind the rate limiter. */
  function Dispatch(sv: Server, now: u32, from: Endpoint, m: Msg): (Server, seq<Out>) {
    match m
    case HostReq(_, _, _) => HandleHostReq(sv, now, from, m)
    case JoinReq(id, _, _) =>
      (match FindSession(sv.sessions, id)
       case None => (sv, [Out(from, Reject(REJ_BAD_SESSION))])
       case Some(i) => Put(sv, i, Join(sv.sessions[i], now, from, m)))
    case PunchReport(id, _, _, _) =>
      (match FindSession(sv.sessions, id)
       case None => (sv, [])
       case Some(i) => Put(sv, i, Report(sv.sessions[i], now, from, m)))
    case Start(p) =>
      (match First(sv.sessions, (s: Session) => HostsLive(s, from))
       case None => (sv, [])
       case Some(i) => Put(sv, i, BeginStart(sv.sessions[i], now, p)))
    case StartAck(id, _) =>
      (match FindSession(sv.sessions, id)
       case None => (sv, [])
       case Some(i) => Put(sv, i, (Ack(sv.sessions[i], now, from, m), [])))
    case Keepalive(id, _) =>
      (match FindSession(sv.sessions, id)
       case None => (sv, [])
       case Some(i) => Put(sv, i, (Keep(sv.sessions[i], now, from), [])))
    case Relay(id, _, _, _) =>
      (match FindSession(sv.sessions, id)
       case None => (sv, [])
       case Some(i) =>
         if !RelayAccepted(sv.sessions[i], from, m) then (sv, [])
         else
           var s := sv.sessions[i];
           (sv.(sessions := sv.sessions[i := Forward(s, now, m)],
                relayForwards := (sv.relayForwards + 1) % TWO32),
            [Out(s.peers.At(m.toSlot).publicEp, m)]))
    case _ => (sv, [])
  }

  /** rv_handle after unpacking: game traffic is never throttled. */
  function Handle(sv: Server, now: u32, from: Endpoint, m: Msg): (Server, seq<Out>)
    requires |sv.rate| == RATE_BUCKETS
  {
    if m.Relay? then Dispatch(sv, now, from, m)
    else
      var k := from.ip % RATE_BUCKETS;
      var (b, ok) := RateTake(sv.rate[k], now);
      var limited := sv.(rate := sv.rate[k := b]);
      if ok then Dispatch(limited, now, from, m) else (limited, [])
  }

  // ------------------------------------------------------------------- tick

  predicate HasRelay(s: Session) {
    exists a: Slot, b: Slot :: s.pairs.At(a, b).routeSent && s.pairs.At(a, b).route == ROUTE_RELAY
  }

  function Refan(s: Session, now: u32): (Session, seq<Out>) {
    if s.phase == Starting && Elapsed(now, s.lastRefan) >= START_REFAN_MS
    then (s.(lastRefan := now), FanStart(s, true, 0))
    else (s, [])
  }

  predicate Expired(s: Session, now: u32) {
    match s.phase
    case Free => false
    case Lobby => Elapsed(now, s.lastActivity) > LOBBY_EXPIRY_MS
    case _ => if HasRelay(s) then Elapsed(now, s.lastRelay) > RELAY_EXPIRY_MS
              else Elapsed(now, s.started) > STARTED_EXPIRY_MS
  }

  /** rv_tick's treatment of one session: refan if due, then reap if expired. */
  function TickSession(s: Session, now: u32): (Session, seq<Out>) {
    var (t, out) := Refan(s, now);
    (if Expired(s, now) then CLEARED else t, out)
  }

  function TickFrom(sv: Server, now: u32, i: nat): (Server, seq<Out>)
    decreases |sv.sessions| - i
  {
    if i >= |sv.sessions| then (sv, [])
    else
      var (s, out) := TickSession(sv.sessions[i], now);
      var (rest, more) := TickFrom(sv.(sessions := sv.sessions[i := s]), now, i + 1);
      (rest, out + more)
  }

  function Tick(sv: Server, now: u32): (Server, seq<Out>) {
    TickFrom(sv, now, 0)
  }

  function Init(now: u32, seed: bv32): Server {
    Server(seq(MAX_SESSIONS, _ => CLEARED), seq(RATE_BUCKETS, _ => Bucket(RATE_BURST * 1000, now)),
           if seed == 0 then 1 else seed, 0)
  }
}
