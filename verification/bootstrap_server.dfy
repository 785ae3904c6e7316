// Every server step of the bootstrap keeps the invariant: what clients know
// stays true as the table advances, and the session a message changes only
// records what its sender was entitled to say.

module BootstrapServer {
  import opened Basics
  import opened LobbyTypes
  import opened Bootstrap
  import R = Rendezvous
  import T = RendezvousTable
  import C = LobbyClient

  // ------------------------------------------------------ ids stay in place

  /** The session an id names is found again, evolved. */
  lemma HomeStable(ss: seq<R.Session>, tt: seq<R.Session>, id: u16)
    requires T.TableInv(ss) && T.TableInv(tt) && T.Advances(ss, tt) && HasHome(ss, id)
    ensures HasHome(tt, id) && T.Evolves(Home(ss, id), Home(tt, id))
    ensures T.SessionInv(Home(ss, id)) && T.SessionInv(Home(tt, id)) && Home(ss, id).phase != R.Free
  {
    var i := R.FindSession(ss, id).value;
    hide T.SessionInv, T.OneLobbyPerHost;
    assert T.Evolves(ss[i], tt[i]);
    assert R.HasId(tt[i], id);
    var j := R.FindSession(tt, id).value;
    assert i == j;
    hide T.Evolves;
  }

  /** What persists of a session a client means. */
  predicate Persists(h: R.Session, k: R.Session) {
    && k.numPlayers == h.numPlayers && k.id == h.id
    && (forall j: Slot :: h.peers.At(j).used ==> k.peers.At(j).used && k.peers.At(j).publicEp == h.peers.At(j).publicEp)
    && (forall a: Slot, b: Slot :: h.pairs.At(a, b).routeSent ==>
          k.pairs.At(a, b).routeSent && k.pairs.At(a, b).route == h.pairs.At(a, b).route)
    && h.peers.At(0).used
  }

  lemma HomePersists(ss: seq<R.Session>, tt: seq<R.Session>, id: u16)
    requires T.TableInv(ss) && T.TableInv(tt) && T.Advances(ss, tt) && HasHome(ss, id)
    ensures HasHome(tt, id) && Persists(Home(ss, id), Home(tt, id))
  {
    HomeStable(ss, tt, id);
    hide HasHome, Home, T.TableInv, T.Advances, T.CellsOk, Quad.At, R.Grid.At;
  }

  /** HomePersists for one id, as a hypothesis. */
  predicate Kept(ss: seq<R.Session>, tt: seq<R.Session>, id: u16) {
    HasHome(ss, id) ==> HasHome(tt, id) && Persists(Home(ss, id), Home(tt, id))
  }

  lemma SeatKept(ss: seq<R.Session>, tt: seq<R.Session>, c: C.Client, e: Endpoint)
    requires Kept(ss, tt, c.sessionId) && Seated(ss, c, e)
    ensures Seated(tt, c, e)
  {
    hide HasHome, Home, Quad.At;
  }

  lemma DecidedKept(ss: seq<R.Session>, tt: seq<R.Session>, id: u16)
    requires Kept(ss, tt, id) && HasHome(ss, id) && AllDecided(Home(ss, id))
    ensures AllDecided(Home(tt, id))
  {
    hide HasHome, Home, Quad.At, R.Grid.At;
  }

  // ---------------------------------------------------------------- clients

  lemma PlacedKept(s: System, r: (R.Server, seq<Out>), e: Endpoint)
    requires e in s.clients && Placed(s, e) && Kept(s.server.sessions, r.0.sessions, s.clients[e].sessionId)
    ensures Placed(ServerAfter(s, r), e)
  {
    var c := s.clients[e];
    var ss, tt := s.server.sessions, r.0.sessions;
    if Seated(ss, c, e) {
      SeatKept(ss, tt, c, e);
    }
    hide Home, HasHome, Seated, Sent, Quad.At;
  }

  lemma ProbesKept(s: System, r: (R.Server, seq<Out>), e: Endpoint)
    requires e in s.clients && Placed(s, e) && ProbesOk(s, e)
    requires Kept(s.server.sessions, r.0.sessions, s.clients[e].sessionId)
    ensures ProbesOk(ServerAfter(s, r), e)
  {
    var c := s.clients[e];
    var ss, tt := s.server.sessions, r.0.sessions;
    if Seated(ss, c, e) {
      SeatKept(ss, tt, c, e);
    }
    if c.stage == C.Joining {
      forall j: Slot | OtherSeat(Home(ss, c.sessionId), e, j) ensures OtherSeat(Home(tt, c.sessionId), e, j) {
        OtherSeatKept(Home(ss, c.sessionId), Home(tt, c.sessionId), e, j);
      }
    }
    hide Home, HasHome, Seated, Quad.At, OtherSeat, NoncesOk, C.AllPeersPresent, Persists;
  }

  lemma OtherSeatKept(h: R.Session, k: R.Session, e: Endpoint, j: Slot)
    requires Persists(h, k) && OtherSeat(h, e, j)
    ensures OtherSeat(k, e, j)
  {
    var l: Slot :| l != j && R.Owns(h.peers.At(l), e);
    hide Quad.At;
    assert R.Owns(k.peers.At(l), e);
  }

  lemma RoutesKept(s: System, r: (R.Server, seq<Out>), e: Endpoint)
    requires e in s.clients && Placed(s, e) && RoutesOk(s, e)
    requires Kept(s.server.sessions, r.0.sessions, s.clients[e].sessionId)
    ensures RoutesOk(ServerAfter(s, r), e)
  {
    hide Home, HasHome, Seated, Quad.At, R.Grid.At, Shape;
    var c := s.clients[e];
    if 3 <= C.Order(c.stage) <= 6 {
      assert HasHome(s.server.sessions, c.sessionId) by { hide RoutesOk; SeatedHas(s.server.sessions, c, e); }
      forall j: Slot | Backed(s.server.sessions, c, j) ensures Backed(r.0.sessions, c, j) {
      }
    }
  }

  lemma SeatedHas(ss: seq<R.Session>, c: C.Client, e: Endpoint)
    requires Seated(ss, c, e)
    ensures HasHome(ss, c.sessionId)
  {
  }

  lemma KnownKept(s: System, r: (R.Server, seq<Out>), e: Endpoint)
    requires e in s.clients && Placed(s, e) && KnownOk(s, e)
    requires Kept(s.server.sessions, r.0.sessions, s.clients[e].sessionId)
    ensures KnownOk(ServerAfter(s, r), e)
  {
    hide Home, HasHome, Seated, Quad.At, R.Grid.At, Shape, C.Known.At;
  }

  lemma StartedKept(s: System, r: (R.Server, seq<Out>), e: Endpoint)
    requires e in s.clients && StartedOk(s, e)
    requires Kept(s.server.sessions, r.0.sessions, s.clients[e].sessionId)
    ensures StartedOk(ServerAfter(s, r), e)
  {
    var c := s.clients[e];
    var ss, tt := s.server.sessions, r.0.sessions;
    if c.startSeen {
      SeatedHas(ss, c, e);
      SeatKept(ss, tt, c, e);
      DecidedKept(ss, tt, c.sessionId);
    }
    hide Home, HasHome, Seated, Quad.At, R.Grid.At, Sent, AllDecided, C.Params, C.FillResult, C.LocalRoutesDecided;
  }

  lemma ClientKept(s: System, r: (R.Server, seq<Out>), e: Endpoint)
    requires e in s.clients && ClientInv(s, e)
    requires T.TableInv(s.server.sessions) && T.TableInv(r.0.sessions) && T.Advances(s.server.sessions, r.0.sessions)
    ensures ClientInv(ServerAfter(s, r), e)
  {
    var id := s.clients[e].sessionId;
    hide Placed, ProbesOk, RoutesOk, KnownOk, StartedOk, T.TableInv, T.Advances, HasHome, Home, Persists, Sent;
    if HasHome(s.server.sessions, id) {
      HomePersists(s.server.sessions, r.0.sessions, id);
    }
    PlacedKept(s, r, e);
    ProbesKept(s, r, e);
    RoutesKept(s, r, e);
    KnownKept(s, r, e);
    StartedKept(s, r, e);
  }

  // ---------------------------------------------------------------- packets

  lemma SaidKept(s: System, r: (R.Server, seq<Out>), p: Packet)
    requires p.src in s.clients && Placed(s, p.src) && ClientSaid(s, p)
    requires Kept(s.server.sessions, r.0.sessions, s.clients[p.src].sessionId)
    ensures ClientSaid(ServerAfter(s, r), p)
  {
    var t := ServerAfter(s, r);
    var id := s.clients[p.src].sessionId;
    if p.msg.PunchAck? {
      var q :| q in s.net && q.src == p.dst && q.msg.Punch? && q.msg.nonce == p.msg.nonce;
      assert q in t.net;
    } else if p.msg.Start? {
      DecidedKept(s.server.sessions, r.0.sessions, id);
    }
    hide Home, HasHome, AllDecided, Quad.At, Seated, Sent;
  }

  lemma StartKept(s: System, r: (R.Server, seq<Out>), dst: Endpoint, p: StartParams)
    requires StartTrue(s, dst, p)
    requires T.TableInv(s.server.sessions) && T.TableInv(r.0.sessions) && T.Advances(s.server.sessions, r.0.sessions)
    ensures StartTrue(ServerAfter(s, r), dst, p)
  {
    var i :| 0 <= i < |s.server.sessions| && StartOf(s, i, dst, p);
    var h, k := s.server.sessions[i], r.0.sessions[i];
    assert T.SessionInv(h) && T.SessionInv(k) && T.Evolves(h, k);
    MemberKept(h, k, dst);
    hide T.TableInv, T.Advances, T.Member, T.CellsOk, T.PeersOk, C.Params, Sent;
    assert h.peers.At(0).used by { SlotZeroUsed(h); }
    assert StartOf(ServerAfter(s, r), i, dst, p);
  }

  lemma SlotZeroUsed(h: R.Session)
    requires T.SessionInv(h) && h.phase != R.Free
    ensures h.peers.At(0).used
  {
  }

  lemma MemberKept(h: R.Session, k: R.Session, e: Endpoint)
    requires T.Evolves(h, k) && T.Member(h, e)
    ensures T.Member(k, e)
  {
    var j: Slot :| R.Owns(h.peers.At(j), e);
    assert R.Owns(k.peers.At(j), e);
  }

  lemma PacketKept(s: System, r: (R.Server, seq<Out>), p: Packet)
    requires PacketInv(s, p) && (p.src in s.clients ==> Placed(s, p.src))
    requires T.TableInv(s.server.sessions) && T.TableInv(r.0.sessions) && T.Advances(s.server.sessions, r.0.sessions)
    ensures PacketInv(ServerAfter(s, r), p)
  {
    hide T.TableInv, T.Advances, T.Vouched, StartTrue, ClientSaid, Placed, HasHome, Home, Persists, Sent;
    if p.src == s.ep {
      T.VouchedPersists(s.server.sessions, r.0.sessions, Out(p.dst, p.msg));
      if p.msg.Start? {
        StartKept(s, r, p.dst, p.msg.params);
      }
    } else {
      var id := s.clients[p.src].sessionId;
      if HasHome(s.server.sessions, id) {
        HomePersists(s.server.sessions, r.0.sessions, id);
      }
      SaidKept(s, r, p);
    }
  }

  // ------------------------------------------------------------ whole steps

  /** What a server step must show of itself to keep the bootstrap's invariant. */
  predicate ServerGood(s: System, r: (R.Server, seq<Out>)) {
    && T.TableInv(r.0.sessions) && T.Advances(s.server.sessions, r.0.sessions) && |r.0.rate| == R.RATE_BUCKETS
    && (forall o :: o in r.1 ==> T.Vouched(r.0.sessions, o))
    && (forall i :: 0 <= i < |r.0.sessions| ==> SessionInv(ServerAfter(s, r), r.0.sessions[i]))
    && (forall o :: o in r.1 && o.msg.Start? ==> StartTrue(ServerAfter(s, r), o.to, o.msg.params))
  }

  lemma ServerSaid(s: System, r: (R.Server, seq<Out>), p: Packet)
    requires ServerGood(s, r) && p in Sent(s.ep, r.1)
    ensures PacketInv(ServerAfter(s, r), p)
  {
    hide T.TableInv, T.Advances, T.Vouched, StartTrue, SessionInv;
  }

  lemma IsPlaced(s: System, e: Endpoint)
    requires Inv(s) && e in s.clients
    ensures ClientInv(s, e) && Placed(s, e)
  {
    hide ProbesOk, RoutesOk, KnownOk, StartedOk, Placed;
  }

  lemma ServerKeeps(s: System, r: (R.Server, seq<Out>))
    requires Inv(s) && ServerGood(s, r)
    ensures Inv(ServerAfter(s, r))
  {
    hide ClientInv, SessionInv, PacketInv, T.TableInv, T.Advances, T.Vouched, StartTrue, Sent, Placed;
    var t := ServerAfter(s, r);
    forall e | e in t.clients ensures ClientInv(t, e) {
      ClientKept(s, r, e);
    }
    forall p | p in t.net ensures PacketInv(t, p) {
      if p in s.net {
        if p.src in s.clients {
          IsPlaced(s, p.src);
        }
        PacketKept(s, r, p);
      } else {
        ServerSaid(s, r, p);
      }
    }
  }
}
