// The whole bootstrap: one server, any number of clients, and a network that
// may lose, duplicate and reorder. Every packet ever sent stays deliverable, so
// loss is never delivering, duplication is delivering twice, and reordering is
// delivering in any order.

module Bootstrap {
  import opened Basics
  import opened LobbyTypes
  import R = Rendezvous
  import T = RendezvousTable
  import C = LobbyClient
  import LobbyCode
  import XorShift

  datatype Packet = Packet(src: Endpoint, dst: Endpoint, msg: Msg)

  datatype System = System(ep: Endpoint, server: R.Server, clients: map<Endpoint, C.Client>, net: set<Packet>)

  function Sent(src: Endpoint, out: seq<Out>): set<Packet> {
    set o | o in out :: Packet(src, o.to, o.msg)
  }

  // ------------------------------------------------------------------ steps

  datatype Step =
    | HostStart(e: Endpoint, now: u32, rng: bv32, privateEp: Endpoint, netVersion: u32, p: StartParams)
    | JoinStart(e: Endpoint, now: u32, rng: bv32, privateEp: Endpoint, netVersion: u32, host: Endpoint)
    | ForceRelay(e: Endpoint)
    | ClientPoll(e: Endpoint, now: u32, inbox: seq<C.In>)
    | ClientPost(e: Endpoint, from: Endpoint, msg: Msg)
    | GameSend(e: Endpoint, to: Endpoint, msg: Msg)
    | ServerReceive(now: u32, from: Endpoint, msg: Msg)
    | ServerTick(now: u32)

  /** Client e becomes d and sends out. */
  function After(s: System, e: Endpoint, d: C.Client, out: seq<Out>): System {
    s.(clients := s.clients[e := d], net := s.net + Sent(e, out))
  }

  function ServerAfter(s: System, r: (R.Server, seq<Out>)): System {
    s.(server := r.0, net := s.net + Sent(s.ep, r.1))
  }

  /** One client instance per endpoint, joiners type a code some host displays,
      and no session is reaped while the bootstrap is under way. */
  predicate Enabled(s: System, step: Step) {
    match step
    case HostStart(e, now, rng, priv, ver, p) =>
      e != s.ep && e !in s.clients && C.HostBegin(now, rng, s.ep, priv, ver, p).Some?
    case JoinStart(e, now, rng, priv, ver, host) =>
      && e != s.ep && e !in s.clients && host in s.clients && s.clients[host].isHost
      && C.JoinBegin(now, rng, priv, ver, s.clients[host].code).Some?
    case ForceRelay(e) => e in s.clients
    case ClientPoll(e, now, inbox) =>
      e in s.clients && forall m :: m in inbox ==> Packet(m.from, e, m.msg) in s.net
    case ClientPost(e, from, msg) => e in s.clients && Packet(from, e, msg) in s.net
    case GameSend(e, to, msg) => e in s.clients && s.clients[e].stage == C.Ready && (msg.Relay? || msg.Game?)
    case ServerReceive(now, from, msg) => Packet(from, s.ep, msg) in s.net
    case ServerTick(now) =>
      forall i :: 0 <= i < |s.server.sessions| ==> !R.Expired(s.server.sessions[i], now)
  }

  function Apply(s: System, step: Step): System
    requires Enabled(s, step) && |s.server.rate| == R.RATE_BUCKETS
  {
    match step
    case HostStart(e, now, rng, priv, ver, p) =>
      var r := C.HostBegin(now, rng, s.ep, priv, ver, p).value;
      After(s, e, r.0, r.1)
    case JoinStart(e, now, rng, priv, ver, host) =>
      var r := C.JoinBegin(now, rng, priv, ver, s.clients[host].code).value;
      After(s, e, r.0, r.1)
    case ForceRelay(e) => After(s, e, C.SetForcedRelay(s.clients[e]), [])
    case ClientPoll(e, now, inbox) =>
      var r := C.Poll(s.clients[e], now, inbox);
      After(s, e, r.0, r.1)
    case ClientPost(e, from, msg) => After(s, e, s.clients[e], C.PostReceive(s.clients[e], from, msg))
    case GameSend(e, to, msg) => After(s, e, s.clients[e], [Out(to, msg)])
    case ServerReceive(now, from, msg) => ServerAfter(s, R.Handle(s.server, now, from, msg))
    case ServerTick(now) => ServerAfter(s, R.Tick(s.server, now))
  }

  function Initial(ep: Endpoint, now: u32, seed: bv32): System {
    System(ep, R.Init(now, seed), map[], {})
  }

  // -------------------------------------------------------------- invariant

  predicate HasHome(ss: seq<R.Session>, id: u16) {
    R.FindSession(ss, id).Some?
  }

  /** The live session an id names. */
  function Home(ss: seq<R.Session>, id: u16): R.Session {
    match R.FindSession(ss, id) case Some(i) => ss[i] case None => R.CLEARED
  }

  predicate AllDecided(h: R.Session) {
    forall a: Slot, b: Slot :: a < b < h.numPlayers ==> h.pairs.At(a, b).routeSent
  }

  /** The server has e in the slot e believes it holds. */
  predicate Seated(ss: seq<R.Session>, c: C.Client, e: Endpoint) {
    && HasHome(ss, c.sessionId)
    && R.Owns(Home(ss, c.sessionId).peers.At(c.localSlot), e)
    && c.numPlayers == Home(ss, c.sessionId).numPlayers
  }

  predicate Backed(ss: seq<R.Session>, c: C.Client, j: Slot) {
    var cell := Home(ss, c.sessionId).pairs.At(c.localSlot, j);
    cell.routeSent && cell.route == c.peer.At(j).route
  }

  /** e has never probed with j's nonce, nor told the server anything about j. */
  predicate Quiet(net: set<Packet>, c: C.Client, e: Endpoint, j: Slot) {
    && !c.peer.At(j).reported && !c.peer.At(j).acked
    && forall p :: p in net && p.src == e && p.msg.Punch? ==> p.msg.nonce != Word(c.peer.At(j).nonce)
  }

  function Drawn(c: C.Client): int {
    (if c.peer.x0.nonce != 0 then 1 else 0) + (if c.peer.x1.nonce != 0 then 1 else 0)
    + (if c.peer.x2.nonce != 0 then 1 else 0) + (if c.peer.x3.nonce != 0 then 1 else 0)
  }

  /** Every nonce is one of the last few draws, and no two are equal. */
  predicate NoncesOk(c: C.Client) {
    && c.rng != 0
    && c.peer.At(c.localSlot).nonce == 0
    && (forall j: Slot :: !c.peer.At(j).present ==> c.peer.At(j).nonce == 0)
    && (forall j: Slot :: c.peer.At(j).present && j != c.localSlot ==> c.peer.At(j).nonce != 0)
    && (C.Order(c.stage) < 3 ==> !c.peer.At(c.localSlot).present)
    && (forall j: Slot, k: Slot :: j != k && c.peer.At(j).nonce != 0 ==> c.peer.At(j).nonce != c.peer.At(k).nonce)
    && (forall j: Slot :: c.peer.At(j).nonce != 0 ==>
          || c.peer.At(j).nonce == c.rng
          || (Drawn(c) >= 2 && XorShift.Next(c.peer.At(j).nonce) == c.rng)
          || Drawn(c) >= 3)
  }

  predicate Shape(c: C.Client) {
    if c.isHost then
      && c.localSlot == 0 && 2 <= c.numPlayers <= 4
      && c.stage != C.Joining && c.stage != C.Idle
      && (c.stage == C.Registering ==> c.sessionId == 0)
      && (3 <= C.Order(c.stage) <= 6 ==> c.sessionId != 0)
      && (c.sessionId == 0 ==> c.code == "")
      && (c.sessionId != 0 ==> c.code == LobbyCode.Encode(c.server, c.sessionId))
    else
      && c.sessionId != 0
      && c.stage != C.Registering && c.stage != C.Idle
      && (c.stage == C.Joining ==> c.localSlot == 0)
  }

  /** Identity: who e is, which session it means, and where it sits. */
  predicate Placed(s: System, e: Endpoint)
    requires e in s.clients
  {
    var c := s.clients[e];
    var ss := s.server.sessions;
    var h := Home(ss, c.sessionId);
    && e != s.ep && c.server == s.ep && Shape(c)
    && (c.sessionId != 0 ==> HasHome(ss, c.sessionId))
    && (c.isHost && c.sessionId != 0 ==> Seated(ss, c, e))
    && (3 <= C.Order(c.stage) <= 6 ==> Seated(ss, c, e))
    && (!c.isHost ==> h.peers.At(0).publicEp in s.clients && s.clients[h.peers.At(0).publicEp].sessionId == c.sessionId)
  }

  /** Probing starts only in PUNCHING, with nonces of the client's own drawing. */
  predicate ProbesOk(s: System, e: Endpoint)
    requires e in s.clients
  {
    var c := s.clients[e];
    && NoncesOk(c)
    && (forall j: Slot :: c.peer.At(j).acked ==> c.peer.At(j).reported)
    && (forall j: Slot :: c.peer.At(j).reported ==> j != c.localSlot && Seated(s.server.sessions, c, e))
    && (C.Order(c.stage) < 4 ==> forall p :: p in s.net && p.src == e ==> !p.msg.Punch?)
    && (c.stage == C.Joining ==> forall j: Slot :: c.peer.At(j).nonce != 0 ==>
          OtherSeat(Home(s.server.sessions, c.sessionId), e, j))
    && (c.stage == C.Punching ==> C.AllPeersPresent(c))
  }

  predicate OtherSeat(h: R.Session, e: Endpoint, j: Slot) {
    exists k: Slot :: k != j && R.Owns(h.peers.At(k), e)
  }

  /** Each route a seated client holds is the server's verdict, or concerns a
      peer it has never probed or reported. */
  predicate RoutesOk(s: System, e: Endpoint)
    requires e in s.clients
  {
    var c := s.clients[e];
    && (c.stage == C.Registering ==> forall j: Slot :: c.peer.At(j).route < 0)
    && (3 <= C.Order(c.stage) <= 6 ==> forall j: Slot :: j != c.localSlot && c.peer.At(j).route >= 0 ==>
          Backed(s.server.sessions, c, j) || Quiet(s.net, c, e, j))
  }

  /** The host knows only pairs the server decided. */
  predicate KnownOk(s: System, e: Endpoint)
    requires e in s.clients
  {
    var c := s.clients[e];
    c.isHost ==> forall a: Slot, b: Slot :: a < b && c.known.At(a, b) ==>
      c.sessionId != 0 && Home(s.server.sessions, c.sessionId).pairs.At(a, b).routeSent
  }

  /** A START was seen only after the whole mesh was decided, with the host's parameters. */
  predicate StartedOk(s: System, e: Endpoint)
    requires e in s.clients
  {
    var c := s.clients[e];
    var h := Home(s.server.sessions, c.sessionId);
    && (c.startSeen ==>
          && Seated(s.server.sessions, c, e) && AllDecided(h)
          && h.peers.At(0).publicEp in s.clients
          && C.Params(c) == C.Params(s.clients[h.peers.At(0).publicEp]))
    && (c.stage == C.Ready ==>
          c.result == Some(C.FillResult(c)) && c.startSeen && C.LocalRoutesDecided(c))
  }

  predicate ClientInv(s: System, e: Endpoint)
    requires e in s.clients
  {
    Placed(s, e) && ProbesOk(s, e) && RoutesOk(s, e) && KnownOk(s, e) && StartedOk(s, e)
  }

  /** Slot 0 of a live session is its host's, the other members are joiners of
      exactly this session, and they could only come once the host knew its id. */
  predicate MembersOk(s: System, h: R.Session) {
    && (forall k: Slot :: h.peers.At(k).used ==>
          && h.peers.At(k).publicEp in s.clients
          && var c := s.clients[h.peers.At(k).publicEp];
             (k == 0 <==> c.isHost) && (k != 0 ==> c.sessionId == h.id))
    && h.peers.At(0).used
    && (h.joined > 1 ==> s.clients[h.peers.At(0).publicEp].sessionId == h.id)
    && s.clients[h.peers.At(0).publicEp].numPlayers == h.numPlayers
  }

  /** A recorded START is the host's, sent with its whole mesh decided. */
  predicate StartOk(s: System, h: R.Session)
    requires h.peers.At(0).publicEp in s.clients
  {
    var host := s.clients[h.peers.At(0).publicEp];
    h.start.Some? ==>
      h.start.value == C.Params(host) && host.sessionId != 0 && AllDecided(Home(s.server.sessions, host.sessionId))
  }

  /** Verdicts only record what the clients reported. */
  predicate TalkOk(s: System, h: R.Session) {
    forall a: Slot, b: Slot ::
      && (h.pairs.At(a, b).punch >= 0 ==> Told(s, h, a, b))
      && (h.pairs.At(a, b).punch == 1 ==> Opened(s, h, a, b))
      && (h.pairs.At(a, b).routeSent && h.pairs.At(a, b).route == ROUTE_DIRECT ==> Opened(s, h, a, b))
  }

  predicate Told(s: System, h: R.Session, a: Slot, b: Slot) {
    && h.peers.At(a).used && h.peers.At(a).publicEp in s.clients
    && s.clients[h.peers.At(a).publicEp].peer.At(b).reported
  }

  predicate Opened(s: System, h: R.Session, a: Slot, b: Slot) {
    && h.peers.At(a).used && h.peers.At(a).publicEp in s.clients
    && s.clients[h.peers.At(a).publicEp].peer.At(b).acked
  }

  predicate SessionInv(s: System, h: R.Session) {
    h.phase != R.Free ==> MembersOk(s, h) && StartOk(s, h) && TalkOk(s, h)
  }

  /** A START from the server repeats the parameters of the host of a session
      the receiver belongs to. */
  predicate StartTrue(s: System, dst: Endpoint, p: StartParams) {
    exists i :: 0 <= i < |s.server.sessions| && StartOf(s, i, dst, p)
  }

  predicate StartOf(s: System, i: nat, dst: Endpoint, p: StartParams)
    requires i < |s.server.sessions|
  {
    var h := s.server.sessions[i];
    && h.phase != R.Free && h.start.Some? && T.Member(h, dst)
    && h.peers.At(0).publicEp in s.clients && p == C.Params(s.clients[h.peers.At(0).publicEp])
  }

  /** What a client's packet says about its sender. */
  predicate ClientSaid(s: System, p: Packet)
    requires p.src in s.clients
  {
    var c := s.clients[p.src];
    match p.msg
    case HostReq(_, np, _) => c.isHost && np == c.numPlayers
    case JoinReq(id, _, _) => !c.isHost && id == c.sessionId
    case PunchReport(id, a, b, ok) =>
      && id == c.sessionId && a < b < 4 && (a == c.localSlot || b == c.localSlot)
      && var j: Slot := if a == c.localSlot then b else a;
         c.peer.At(j).reported && (ok != 0 ==> c.peer.At(j).acked)
    case Start(q) =>
      p.dst == s.ep && c.isHost && q == C.Params(c) && c.sessionId != 0
        && AllDecided(Home(s.server.sessions, c.sessionId))
    case PunchAck(_, _, nonce) => Probed(s.net, p.dst, nonce)
    case Punch(_, _, _) => true
    case StartAck(_, _) => true
    case Keepalive(_, _) => true
    case Relay(_, _, _, _) => true
    case Game(_, _, _, _) => true
    case _ => false
  }

  predicate Probed(net: set<Packet>, e: Endpoint, nonce: u32) {
    exists q :: q in net && q.src == e && q.msg.Punch? && q.msg.nonce == nonce
  }

  predicate PacketInv(s: System, p: Packet) {
    if p.src == s.ep then
      && T.Vouched(s.server.sessions, Out(p.dst, p.msg))
      && (p.msg.Start? ==> StartTrue(s, p.dst, p.msg.params))
    else
      p.src in s.clients && ClientSaid(s, p)
  }

  predicate Inv(s: System) {
    && T.TableInv(s.server.sessions) && |s.server.rate| == R.RATE_BUCKETS
    && (forall e :: e in s.clients ==> ClientInv(s, e))
    && (forall i :: 0 <= i < |s.server.sessions| ==> SessionInv(s, s.server.sessions[i]))
    && (forall p :: p in s.net ==> PacketInv(s, p))
  }

  // ---------------------------------------------------------- main theorem

  /** What the caller of a READY client is given. */
  predicate ReadyIn(s: System, e: Endpoint, id: u16) {
    e in s.clients && s.clients[e].stage == C.Ready && s.clients[e].sessionId == id
  }

  predicate Agree(s: System, e: Endpoint, f: Endpoint)
    requires e in s.clients && f in s.clients
    requires s.clients[e].result.Some? && s.clients[f].result.Some?
  {
    var x, y := s.clients[e].result.value, s.clients[f].result.value;
    && x.localSlot != y.localSlot
    && x.seed == y.seed && x.arenaId == y.arenaId && x.numPlayers == y.numPlayers && x.inputDelay == y.inputDelay
    && x.sessionId == y.sessionId
    && !x.route.At(y.localSlot).NoRoute? && !y.route.At(x.localSlot).NoRoute?
    && (x.route.At(y.localSlot).Direct? <==> y.route.At(x.localSlot).Direct?)
    && (x.route.At(y.localSlot).Direct? ==>
          s.clients[e].peer.At(y.localSlot).acked && s.clients[f].peer.At(x.localSlot).acked)
  }

  lemma HomeFacts(s: System, e: Endpoint)
    requires Inv(s) && e in s.clients && s.clients[e].sessionId != 0
    ensures var c := s.clients[e];
      var h := Home(s.server.sessions, c.sessionId);
      && HasHome(s.server.sessions, c.sessionId)
      && h in s.server.sessions && h.phase != R.Free && h.id == c.sessionId && T.SessionInv(h)
      && SessionInv(s, h)
  {
    assert ClientInv(s, e);
    var i := R.FindSession(s.server.sessions, s.clients[e].sessionId).value;
    assert SessionInv(s, s.server.sessions[i]);
  }

  /** A seated client whose every own pair is decided holds the server's verdict
      for each of them. */
  lemma RouteIsVerdict(s: System, e: Endpoint, j: Slot)
    requires Inv(s) && e in s.clients && 3 <= C.Order(s.clients[e].stage) <= 6
      && Seated(s.server.sessions, s.clients[e], e)
    requires s.clients[e].peer.At(j).route >= 0 && j != s.clients[e].localSlot
    requires Home(s.server.sessions, s.clients[e].sessionId).pairs.At(s.clients[e].localSlot, j).routeSent
    ensures Backed(s.server.sessions, s.clients[e], j)
  {
    assert ClientInv(s, e);
    HomeFacts(s, e);
    hide Inv, Placed, KnownOk, StartedOk, Shape, NoncesOk;
  }

  lemma ReadyFacts(s: System, e: Endpoint, id: u16)
    requires Inv(s) && ReadyIn(s, e, id)
    ensures var c := s.clients[e];
      var h := Home(s.server.sessions, id);
      && Seated(s.server.sessions, c, e) && AllDecided(h) && T.SessionInv(h) && h.phase != R.Free
      && h.peers.At(0).publicEp in s.clients && C.Params(c) == C.Params(s.clients[h.peers.At(0).publicEp])
      && c.result == Some(C.FillResult(c)) && C.LocalRoutesDecided(c)
  {
    assert ClientInv(s, e);
    HomeFacts(s, e);
  }

  /** The verdict of a decided pair, seen from slot a, with what DIRECT implies. */
  lemma DirectMeansAcked(s: System, e: Endpoint, j: Slot)
    requires Inv(s) && e in s.clients && Seated(s.server.sessions, s.clients[e], e) && s.clients[e].sessionId != 0
    requires var cell := Home(s.server.sessions, s.clients[e].sessionId).pairs.At(s.clients[e].localSlot, j);
      cell.routeSent && cell.route == ROUTE_DIRECT
    ensures s.clients[e].peer.At(j).acked
  {
    HomeFacts(s, e);
  }

  /** Two clients READY in one session were given the same match and the same
      kind of route to each other; for a direct one, each has seen the other's slot
      acknowledge a probe. Who it was that answered is in bootstrap_paths.dfy. */
  lemma ReadyAgreement(s: System, e: Endpoint, f: Endpoint, id: u16)
    requires Inv(s) && ReadyIn(s, e, id) && ReadyIn(s, f, id) && e != f
    ensures s.clients[e].result.Some? && s.clients[f].result.Some? && Agree(s, e, f)
  {
    hide Inv, ClientInv, SessionInv;
    var c, d := s.clients[e], s.clients[f];
    ReadyFacts(s, e, id);
    ReadyFacts(s, f, id);
    var h := Home(s.server.sessions, id);
    var a, b := c.localSlot, d.localSlot;
    ReadySlots(h, c, d, e, f);
    RouteIsVerdict(s, e, b);
    RouteIsVerdict(s, f, a);
    if h.pairs.At(a, b).route == ROUTE_DIRECT {
      DirectMeansAcked(s, e, b);
      DirectMeansAcked(s, f, a);
    }
    hide Quad.At, R.Grid.At;
    assert Agree(s, e, f) by {
      RouteToAt(c, b);
      RouteToAt(d, a);
    }
  }

  lemma RouteToAt(c: C.Client, j: Slot)
    ensures C.FillResult(c).route.At(j) == C.RouteTo(c, j)
  {
    hide C.RouteTo;
  }

  lemma ReadySlots(h: R.Session, c: C.Client, d: C.Client, e: Endpoint, f: Endpoint)
    requires T.SessionInv(h) && h.phase != R.Free && AllDecided(h) && e != f
    requires R.Owns(h.peers.At(c.localSlot), e) && R.Owns(h.peers.At(d.localSlot), f)
    ensures c.localSlot != d.localSlot && c.localSlot < h.numPlayers && d.localSlot < h.numPlayers
    ensures var x, y := h.pairs.At(c.localSlot, d.localSlot), h.pairs.At(d.localSlot, c.localSlot);
      x.routeSent && y.routeSent && x.route == y.route
  {
  }
}
