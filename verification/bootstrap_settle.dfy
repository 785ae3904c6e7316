// Messages that settle something at a client: an acknowledged probe, a pair's
// route, the START.

module BootstrapSettle {
  import opened Basics
  import opened LobbyTypes
  import opened Bootstrap
  import opened BootstrapClient
  import opened BootstrapReceive
  import R = Rendezvous
  import T = RendezvousTable
  import C = LobbyClient
  import LobbyCode
  import XorShift

  // ------------------------------------------------------------- reporting

  /** c reports its peer in `slot`, or repeats such a report. */
  predicate Marks(c: C.Client, d: C.Client, slot: Slot) {
    && slot != c.localSlot && d == c.(peer := d.peer)
    && (forall j: Slot :: j != slot ==> d.peer.At(j) == c.peer.At(j))
    && d.peer.At(slot).present == c.peer.At(slot).present
    && d.peer.At(slot).nonce == c.peer.At(slot).nonce
    && d.peer.At(slot).route == c.peer.At(slot).route
    && d.peer.At(slot).reported && (c.peer.At(slot).acked ==> d.peer.At(slot).acked)
  }

  lemma MarkPlaced(s: System, e: Endpoint, slot: Slot, d: C.Client, out: seq<Out>)
    requires e in s.clients && Placed(s, e) && KnownOk(s, e) && StartedOk(s, e) && Marks(s.clients[e], d, slot)
    requires s.clients[e].stage != C.Ready
    ensures var t := After(s, e, d, out); Placed(t, e) && KnownOk(t, e) && StartedOk(t, e)
  {
    hide Quad.At, Quad.With, Home, HasHome, AllDecided, LobbyCode.Encode, R.Grid.At, C.Known.At, Sent;
    var t := After(s, e, d, out);
    assert Placed(t, e);
    assert KnownOk(t, e);
    assert StartedOk(t, e);
  }

  /** The step draws no nonce and introduces nobody. */
  predicate SameNonce(c: C.Client, d: C.Client) {
    && d.rng == c.rng && d.stage == c.stage && d.localSlot == c.localSlot
    && forall j: Slot :: d.peer.At(j).nonce == c.peer.At(j).nonce && d.peer.At(j).present == c.peer.At(j).present
  }

  lemma SameDrawn(c: C.Client, d: C.Client)
    requires SameNonce(c, d)
    ensures Drawn(d) == Drawn(c)
  {
    assert d.peer.At(0).nonce == c.peer.At(0).nonce && d.peer.At(1).nonce == c.peer.At(1).nonce
           && d.peer.At(2).nonce == c.peer.At(2).nonce && d.peer.At(3).nonce == c.peer.At(3).nonce;
  }

  lemma NoncesStay(c: C.Client, d: C.Client)
    requires NoncesOk(c) && SameNonce(c, d)
    ensures NoncesOk(d)
  {
    hide Quad.At, Drawn, XorShift.Next;
    SameDrawn(c, d);
  }

  lemma MarkNonces(c: C.Client, d: C.Client, slot: Slot)
    requires NoncesOk(c) && Marks(c, d, slot)
    ensures NoncesOk(d)
  {
    hide NoncesOk, Quad.At;
    NoncesStay(c, d);
  }

  lemma MarkProbes(s: System, e: Endpoint, slot: Slot, d: C.Client, out: seq<Out>)
    requires e in s.clients && ProbesOk(s, e) && Marks(s.clients[e], d, slot) && NoPunch(out)
    requires Seated(s.server.sessions, s.clients[e], e)
    ensures ProbesOk(After(s, e, d, out), e)
  {
    hide Quad.At, Home, HasHome, OtherSeat, Seated;
    MarkNonces(s.clients[e], d, slot);
    hide NoncesOk;
    SameSeated(s.server.sessions, s.clients[e], d, e);
    assert C.AllPeersPresent(s.clients[e]) ==> C.AllPeersPresent(d);
  }

  lemma MarkRoutes(s: System, e: Endpoint, slot: Slot, d: C.Client, out: seq<Out>)
    requires e in s.clients && RoutesOk(s, e) && Marks(s.clients[e], d, slot) && NoPunch(out)
    requires s.clients[e].peer.At(slot).route >= 0 ==> Backed(s.server.sessions, s.clients[e], slot)
    ensures RoutesOk(After(s, e, d, out), e)
  {
    hide Quad.At, Home, HasHome, Seated, R.Grid.At;
    SameSeated(s.server.sessions, s.clients[e], d, e);
  }

  lemma MarkGrows(c: C.Client, d: C.Client, slot: Slot)
    requires Marks(c, d, slot)
    ensures Grows(c, d)
  {
    hide Quad.At;
  }

  lemma MarkGood(s: System, e: Endpoint, slot: Slot, d: C.Client, out: seq<Out>)
    requires e in s.clients && ClientInv(s, e) && Marks(s.clients[e], d, slot) && s.clients[e].stage != C.Ready
    requires Seated(s.server.sessions, s.clients[e], e) && NoPunch(out)
    requires s.clients[e].peer.At(slot).route >= 0 ==> Backed(s.server.sessions, s.clients[e], slot)
    requires forall o :: o in out ==> ClientSaid(After(s, e, d, out), Packet(e, o.to, o.msg))
    ensures Good(s, e, d, out)
  {
    hide Placed, ProbesOk, RoutesOk, KnownOk, StartedOk, Marks, Grows, Home, Seated, ClientSaid, NoPunch, Backed;
    MarkPlaced(s, e, slot, d, out);
    MarkProbes(s, e, slot, d, out);
    MarkRoutes(s, e, slot, d, out);
    MarkGrows(s.clients[e], d, slot);
  }

  lemma ReportSaid(t: System, e: Endpoint, j: Slot, ok: u8, c: C.Client)
    requires e in t.clients && t.clients[e].sessionId == c.sessionId && t.clients[e].localSlot == c.localSlot != j
    requires t.clients[e].peer.At(j).reported && (ok != 0 ==> t.clients[e].peer.At(j).acked)
    ensures ClientSaid(t, Packet(e, C.ReportOf(c, j, ok).to, C.ReportOf(c, j, ok).msg))
  {
    hide Quad.At;
  }

  // ---------------------------------------------------------- PUNCH_ACK

  /** An acknowledgement that reached e answers a probe e sent. */
  lemma AckProves(s: System, e: Endpoint, p: Packet)
    requires PacketInv(s, p) && p.dst == e && p.msg.PunchAck?
    ensures Probed(s.net, e, p.msg.nonce)
  {
    hide T.SessionInv, Probed, StartTrue;
  }

  lemma ProbedSeat(s: System, e: Endpoint, slot: Slot)
    requires e in s.clients && ClientInv(s, e) && C.Active(s.clients[e]) && slot != s.clients[e].localSlot
    requires Probed(s.net, e, Word(s.clients[e].peer.At(slot).nonce))
    ensures Seated(s.server.sessions, s.clients[e], e)
    ensures s.clients[e].peer.At(slot).route >= 0 ==> Backed(s.server.sessions, s.clients[e], slot)
  {
    hide NoncesOk, KnownOk, StartedOk, Seated, Backed, Home, OtherSeat, C.AllPeersPresent, LobbyCode.Encode, Quad.At;
  }

  lemma PunchAckGood(s: System, e: Endpoint, now: u32, p: Packet)
    requires e in s.clients && ClientInv(s, e) && C.Active(s.clients[e]) && PacketInv(s, p) && p.dst == e
      && p.msg.PunchAck?
    ensures var (d, out) := C.OnPunchAck(s.clients[e], now, p.src, p.msg.sessionId, p.msg.fromSlot, p.msg.nonce);
      Good(s, e, d, out)
  {
    var c := s.clients[e];
    var (d, out) := C.OnPunchAck(c, now, p.src, p.msg.sessionId, p.msg.fromSlot, p.msg.nonce);
    hide ClientInv, PacketInv, ClientSaid, Good, Seated, Backed, Sent, Probed;
    if C.AckMatches(c, p.msg.sessionId, p.msg.fromSlot, p.msg.nonce) {
      var slot: Slot := p.msg.fromSlot;
      AckProves(s, e, p);
      ProbedSeat(s, e, slot);
      assert Marks(c, d, slot);
      ReportSaid(After(s, e, d, out), e, slot, 1, c);
      MarkGood(s, e, slot, d, out);
    } else {
      NoChangeGood(s, e);
    }
  }

  // ---------------------------------------------------------- PAIR_ROUTE

  /** The server's verdict r on the pair (a, b) of e's own session. */
  predicate Verdict(s: System, c: C.Client, a: Slot, b: Slot, r: u8) {
    && a < b && r <= ROUTE_RELAY && c.sessionId != 0
    && var g := Home(s.server.sessions, c.sessionId).pairs;
       && g.At(a, b).routeSent && g.At(a, b).route == r
       && g.At(b, a).routeSent && g.At(b, a).route == r
  }

  lemma RouteVerdict(s: System, e: Endpoint, src: Endpoint, a: u8, b: u8, r: u8)
    requires Inv(s) && e in s.clients && Packet(src, e, PairRoute(a, b, r)) in s.net
    ensures a < 4 && b < 4 && Verdict(s, s.clients[e], a, b, r)
  {
    var i := FromServer(s, Packet(src, e, PairRoute(a, b, r)));
    MemberHome(s, e, i);
    HomeIs(s.server.sessions, i);
    CellJoined(s.server.sessions[i], a, b);
    hide Inv, T.SessionInv, SessionInv, Home, HasHome, R.Grid.At;
  }

  /** c learns the route of the pair (a, b). */
  predicate Learns(c: C.Client, d: C.Client, a: Slot, b: Slot, r: u8) {
    && d == c.(known := d.known, peer := d.peer)
    && (forall x: Slot, y: Slot :: d.known.At(x, y) == ((x == a && y == b) || (x == b && y == a) || c.known.At(x, y)))
    && (forall j: Slot :: d.peer.At(j) ==
          if (a == c.localSlot && j == b) || (a != c.localSlot && b == c.localSlot && j == a)
          then c.peer.At(j).(route := r) else c.peer.At(j))
  }

  lemma LearnPlaced(s: System, e: Endpoint, a: Slot, b: Slot, r: u8, d: C.Client)
    requires e in s.clients && Placed(s, e) && StartedOk(s, e) && Learns(s.clients[e], d, a, b, r)
    requires s.clients[e].stage != C.Ready
    ensures var t := After(s, e, d, []); Placed(t, e) && StartedOk(t, e)
  {
    hide Quad.At, Quad.With, Home, HasHome, AllDecided, LobbyCode.Encode, R.Grid.At, C.Known.At, Sent;
    var t := After(s, e, d, []);
    assert Placed(t, e);
    assert StartedOk(t, e);
  }

  lemma LearnKnown(s: System, e: Endpoint, a: Slot, b: Slot, r: u8, d: C.Client)
    requires e in s.clients && KnownOk(s, e) && Learns(s.clients[e], d, a, b, r) && Verdict(s, s.clients[e], a, b, r)
    ensures KnownOk(After(s, e, d, []), e)
  {
    hide Quad.At, C.Known.At, R.Grid.At, Home;
  }

  lemma LearnProbes(s: System, e: Endpoint, a: Slot, b: Slot, r: u8, d: C.Client)
    requires e in s.clients && ProbesOk(s, e) && Learns(s.clients[e], d, a, b, r)
    ensures ProbesOk(After(s, e, d, []), e)
  {
    SentNothing(s, e, d);
    hide Quad.At, Home, HasHome, OtherSeat, Seated, C.Known.At;
    assert SameNonce(s.clients[e], d);
    hide NoncesOk;
    NoncesStay(s.clients[e], d);
    SameSeated(s.server.sessions, s.clients[e], d, e);
    assert C.AllPeersPresent(s.clients[e]) ==> C.AllPeersPresent(d);
  }

  lemma LearnRoutes(s: System, e: Endpoint, a: Slot, b: Slot, r: u8, d: C.Client)
    requires e in s.clients && RoutesOk(s, e) && Learns(s.clients[e], d, a, b, r) && Verdict(s, s.clients[e], a, b, r)
    requires s.clients[e].stage != C.Registering
    ensures RoutesOk(After(s, e, d, []), e)
  {
    SentNothing(s, e, d);
    hide Quad.At, Home, HasHome, Seated, R.Grid.At, C.Known.At;
    SameSeated(s.server.sessions, s.clients[e], d, e);
  }

  lemma LearnGrows(c: C.Client, a: Slot, b: Slot, r: u8, d: C.Client)
    requires Learns(c, d, a, b, r)
    ensures Grows(c, d)
  {
    hide Quad.At;
  }

  lemma LearnCases(c: C.Client, a: Slot, b: Slot, r: u8)
    requires a < b && r <= ROUTE_RELAY
    ensures Learns(c, C.OnPairRoute(c, a, b, r), a, b, r)
  {
    hide Quad.At, C.Known.At;
  }

  lemma PairRouteGood(s: System, e: Endpoint, a: Slot, b: Slot, r: u8)
    requires e in s.clients && ClientInv(s, e) && C.Active(s.clients[e]) && Verdict(s, s.clients[e], a, b, r)
    ensures Good(s, e, C.OnPairRoute(s.clients[e], a, b, r), [])
  {
    var c := s.clients[e];
    var d := C.OnPairRoute(c, a, b, r);
    assert c.stage == C.Registering ==> c.sessionId == 0 by { hide ProbesOk, RoutesOk, KnownOk, StartedOk, Seated; }
    LearnCases(c, a, b, r);
    hide Placed, ProbesOk, RoutesOk, KnownOk, StartedOk, Learns, Grows, Home, C.OnPairRoute;
    assert c.sessionId != 0 && r <= ROUTE_RELAY;
    hide Verdict;
    LearnPlaced(s, e, a, b, r, d);
    LearnKnown(s, e, a, b, r, d);
    LearnProbes(s, e, a, b, r, d);
    LearnRoutes(s, e, a, b, r, d);
    LearnGrows(c, a, b, r, d);
  }

  // --------------------------------------------------------------- START

  /** What a START reaching e proves: the mesh is decided and p is the host's. */
  predicate Called(s: System, e: Endpoint, p: StartParams)
    requires e in s.clients
  {
    var c := s.clients[e];
    var h := Home(s.server.sessions, c.sessionId);
    && AllDecided(h) && h.peers.At(0).publicEp in s.clients
    && (c.isHost ==> p == C.Params(c))
    && (!c.isHost ==> h.peers.At(0).publicEp != e)
    && p == C.Params(s.clients[h.peers.At(0).publicEp]) && p.numPlayers == h.numPlayers
  }

  lemma StartPacket(s: System, e: Endpoint, src: Endpoint, p: StartParams)
    requires e in s.clients && e != s.ep && PacketInv(s, Packet(src, e, Start(p)))
    ensures StartTrue(s, e, p)
  {
    hide StartTrue, T.Vouched, AllDecided;
  }

  lemma StartCalls(s: System, e: Endpoint, i: nat, p: StartParams)
    requires Inv(s) && e in s.clients && i < |s.server.sessions| && StartOf(s, i, e, p)
    requires 3 <= C.Order(s.clients[e].stage) <= 5
    ensures Called(s, e, p)
  {
    InvClient(s, e);
    MemberHome(s, e, i);
    HomeIs(s.server.sessions, i);
    var c := s.clients[e];
    var h := s.server.sessions[i];
    hide Inv, T.CellsOk, TalkOk, Home, HasHome, AllDecided, ProbesOk, RoutesOk, KnownOk, StartedOk, Shape;
  }

  /** c takes over the parameters of a START. */
  predicate Takes(c: C.Client, d: C.Client, p: StartParams) {
    && d == c.(seed := p.seed, arenaId := p.arenaId, inputDelay := p.inputDelay, startSeen := true)
    && c.numPlayers == p.numPlayers
  }

  lemma TakePlaced(s: System, e: Endpoint, p: StartParams, d: C.Client, out: seq<Out>)
    requires e in s.clients && Placed(s, e) && KnownOk(s, e) && Takes(s.clients[e], d, p)
    ensures var t := After(s, e, d, out); Placed(t, e) && KnownOk(t, e)
  {
    hide Quad.At, Quad.With, Home, HasHome, AllDecided, LobbyCode.Encode, R.Grid.At, C.Known.At, Sent;
    var t := After(s, e, d, out);
    assert Placed(t, e);
    assert KnownOk(t, e);
  }

  lemma TakeProbes(s: System, e: Endpoint, p: StartParams, d: C.Client, out: seq<Out>)
    requires e in s.clients && ProbesOk(s, e) && RoutesOk(s, e) && Takes(s.clients[e], d, p) && NoPunch(out)
    ensures var t := After(s, e, d, out); ProbesOk(t, e) && RoutesOk(t, e)
  {
    hide Quad.At, Home, HasHome, OtherSeat, Seated, R.Grid.At;
    assert SameNonce(s.clients[e], d);
    NoncesStay(s.clients[e], d);
    hide NoncesOk;
    SameSeated(s.server.sessions, s.clients[e], d, e);
    assert C.AllPeersPresent(s.clients[e]) ==> C.AllPeersPresent(d);
    assert ProbesOk(After(s, e, d, out), e);
    assert RoutesOk(After(s, e, d, out), e);
  }

  lemma TakeStarted(s: System, e: Endpoint, p: StartParams, d: C.Client, out: seq<Out>)
    requires e in s.clients && Takes(s.clients[e], d, p) && Called(s, e, p)
    requires Seated(s.server.sessions, s.clients[e], e) && s.clients[e].stage != C.Ready
    ensures StartedOk(After(s, e, d, out), e)
  {
    hide Quad.At, Home, HasHome, AllDecided, Sent, C.FillResult;
    SameSeated(s.server.sessions, s.clients[e], d, e);
    hide Seated;
  }

  lemma TakeGrows(c: C.Client, d: C.Client, p: StartParams)
    requires Takes(c, d, p) && (c.isHost ==> p == C.Params(c))
    ensures Grows(c, d)
  {
    hide Quad.At;
  }

  lemma TakeGood(s: System, e: Endpoint, p: StartParams, d: C.Client, out: seq<Out>)
    requires e in s.clients && ClientInv(s, e) && Takes(s.clients[e], d, p) && Called(s, e, p) && NoPunch(out)
    requires Seated(s.server.sessions, s.clients[e], e) && s.clients[e].stage != C.Ready
    requires forall o :: o in out ==> ClientSaid(After(s, e, d, out), Packet(e, o.to, o.msg))
    ensures Good(s, e, d, out)
  {
    hide Placed, ProbesOk, RoutesOk, KnownOk, StartedOk, Takes, Grows, Home, Seated, ClientSaid, NoPunch, AllDecided;
    TakePlaced(s, e, p, d, out);
    TakeProbes(s, e, p, d, out);
    TakeStarted(s, e, p, d, out);
    TakeGrows(s.clients[e], d, p);
  }

  lemma StartCases(s: System, e: Endpoint, p: StartParams)
    requires e in s.clients && Called(s, e, p) && Seated(s.server.sessions, s.clients[e], e)
    requires 3 <= C.Order(s.clients[e].stage) <= 5
    ensures var (d, out) := C.OnStart(s.clients[e], p);
      (d == s.clients[e] && out == []) || (Takes(s.clients[e], d, p) && out == [C.StartAckOf(d)])
  {
    hide Home, HasHome, AllDecided, R.Owns;
  }

  lemma SeatedStage(s: System, e: Endpoint)
    requires e in s.clients && ClientInv(s, e) && 3 <= C.Order(s.clients[e].stage) <= 6
    ensures Seated(s.server.sessions, s.clients[e], e)
  {
    hide ProbesOk, RoutesOk, KnownOk, StartedOk, Seated, Shape;
  }

  lemma AckTrue(t: System, e: Endpoint, o: Out)
    requires e in t.clients && o.msg.StartAck?
    ensures ClientSaid(t, Packet(e, o.to, o.msg))
  {
  }

  lemma StartGood(s: System, e: Endpoint, p: StartParams)
    requires e in s.clients && ClientInv(s, e) && C.Active(s.clients[e])
    requires 3 <= C.Order(s.clients[e].stage) <= 5 ==> Called(s, e, p)
    ensures var (d, out) := C.OnStart(s.clients[e], p); Good(s, e, d, out)
  {
    var c := s.clients[e];
    var (d, out) := C.OnStart(c, p);
    if C.Order(c.stage) < 3 || C.Order(c.stage) > 5 {
      hide ClientInv, Good;
      NoChangeGood(s, e);
    } else {
      hide ClientInv, Good, Called, Seated, Takes, C.OnStart, ClientSaid, Grows;
      SeatedStage(s, e);
      StartCases(s, e, p);
      if d == c && out == [] {
        NoChangeGood(s, e);
      } else {
        AckTrue(After(s, e, d, out), e, C.StartAckOf(d));
        TakeGood(s, e, p, d, out);
      }
    }
  }
}
