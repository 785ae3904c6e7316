// Every message a client receives keeps its part of the invariant.

module BootstrapReceive {
  import opened Basics
  import opened LobbyTypes
  import opened Bootstrap
  import opened BootstrapClient
  import R = Rendezvous
  import T = RendezvousTable
  import C = LobbyClient
  import LobbyCode
  import XorShift

  lemma SentNothing(s: System, e: Endpoint, d: C.Client)
    requires e in s.clients
    ensures After(s, e, d, []).net == s.net
  {
    assert Sent(e, []) == {};
  }

  lemma NoChangeGood(s: System, e: Endpoint)
    requires e in s.clients && ClientInv(s, e)
    ensures Good(s, e, s.clients[e], [])
  {
    hide ClientInv, Grows;
    FrameGood(s, e, s.clients[e], []);
  }

  lemma HostRespPlaced(s: System, e: Endpoint, h: R.Session, d: C.Client)
    requires e in s.clients && ClientInv(s, e) && s.clients[e].stage == C.Registering
    requires T.SessionInv(h) && MembersOk(s, h) && R.Owns(h.peers.At(0), e) && HasHome(s.server.sessions, h.id)
      && Home(s.server.sessions, h.id) == h
    requires h.phase != R.Free && d == C.OnHostResp(s.clients[e], h.id)
    ensures Placed(After(s, e, d, []), e) && Seated(s.server.sessions, d, e) && Grows(s.clients[e], d)
  {
    hide ProbesOk, RoutesOk, KnownOk, StartedOk, Home, HasHome, LobbyCode.Encode, Sent;
  }

  lemma HostRespRest(s: System, e: Endpoint, id: u16, d: C.Client)
    requires e in s.clients && ClientInv(s, e) && s.clients[e].stage == C.Registering && id != 0
    requires d == C.OnHostResp(s.clients[e], id)
    ensures var t := After(s, e, d, []);
      ProbesOk(t, e) && RoutesOk(t, e) && KnownOk(t, e) && StartedOk(t, e)
  {
    var c := s.clients[e];
    SentNothing(s, e, d);
    assert c.isHost && c.localSlot == 0;
    assert forall j: Slot :: j != 0 ==> d.peer.At(j) == c.peer.At(j);
    assert d.peer.At(0) == c.peer.At(0).(present := true);
    hide Home, HasHome, R.Owns, AllDecided, Sent, Placed, LobbyCode.Encode;
  }

  lemma HostRespGood(s: System, e: Endpoint, src: Endpoint, id: u16)
    requires Inv(s) && e in s.clients && Packet(src, e, HostResp(id)) in s.net
    ensures Good(s, e, C.OnHostResp(s.clients[e], id), [])
  {
    hide Inv, ClientInv, Good, T.SessionInv, SessionInv, MembersOk, Placed, ProbesOk, RoutesOk, KnownOk, StartedOk,
      Grows, Seated, Home, HasHome, Sent, LobbyCode.Encode, C.OnHostResp;
    var d := C.OnHostResp(s.clients[e], id);
    InvClient(s, e);
    if d == s.clients[e] {
      NoChangeGood(s, e);
    } else {
      HostRespStage(s.clients[e], id);
      var i := FromServer(s, Packet(src, e, HostResp(id)));
      HostRespSession(s, e, i, id);
      HostRespPlaced(s, e, s.server.sessions[i], d);
      HostRespRest(s, e, id, d);
      PiecesGood(s, e, d, []);
    }
  }

  lemma PiecesGood(s: System, e: Endpoint, d: C.Client, out: seq<Out>)
    requires e in s.clients && Grows(s.clients[e], d)
    requires var t := After(s, e, d, out);
      Placed(t, e) && ProbesOk(t, e) && RoutesOk(t, e) && KnownOk(t, e) && StartedOk(t, e)
    requires forall o :: o in out ==> ClientSaid(After(s, e, d, out), Packet(e, o.to, o.msg))
    ensures Good(s, e, d, out)
  {
    hide Placed, ProbesOk, RoutesOk, KnownOk, StartedOk, Grows, ClientSaid, After;
  }

  lemma HostRespStage(c: C.Client, id: u16)
    requires C.OnHostResp(c, id) != c
    ensures c.stage == C.Registering && id != 0
  {
  }

  /** The session a HOST_RESP speaks for has its receiver in slot 0. */
  lemma HostRespSession(s: System, e: Endpoint, i: nat, id: u16)
    requires Inv(s) && e in s.clients && LiveTruth(s.server.sessions, i, Out(e, HostResp(id)))
    ensures var h := s.server.sessions[i];
      && T.SessionInv(h) && MembersOk(s, h) && R.Owns(h.peers.At(0), e) && h.phase != R.Free && h.id == id
      && HasHome(s.server.sessions, h.id) && Home(s.server.sessions, h.id) == h
  {
    MemberHome(s, e, i);
    HomeIs(s.server.sessions, i);
    hide Inv, Home, HasHome, T.SessionInv, MembersOk;
  }

  /** A joiner has told the server nothing and probed nobody before JOIN_RESP. */
  lemma JoiningIsQuiet(s: System, e: Endpoint, h: R.Session)
    requires e in s.clients && ClientInv(s, e) && s.clients[e].stage == C.Joining
    requires HasHome(s.server.sessions, s.clients[e].sessionId) && Home(s.server.sessions, s.clients[e].sessionId) == h
    requires !R.Owns(h.peers.At(0), e)
    ensures !s.clients[e].isHost && !s.clients[e].startSeen && !Seated(s.server.sessions, s.clients[e], e)
    ensures s.clients[e].localSlot == 0 && s.clients[e].sessionId != 0
    ensures forall j: Slot :: Quiet(s.net, s.clients[e], e, j)
  {
    hide Home, HasHome, NoncesOk, RoutesOk, KnownOk, Backed, AllDecided, C.Params, OtherSeat;
  }

  lemma JoinRespNonces(c: C.Client, slot: Slot, np: u8)
    requires NoncesOk(c) && c.stage == C.Joining && 2 <= np <= 4 && c.peer.At(slot).nonce == 0 && c.localSlot == 0
    ensures NoncesOk(C.OnJoinResp(c, slot, np))
  {
    var d := C.OnJoinResp(c, slot, np);
    assert forall j: Slot :: d.peer.At(j) == if j == slot then c.peer.At(j).(present := true) else c.peer.At(j);
    assert Drawn(d) == Drawn(c);
  }

  lemma UnseatedNonce(h: R.Session, e: Endpoint, slot: Slot)
    requires T.SessionInv(h) && h.phase != R.Free && R.Owns(h.peers.At(slot), e)
    ensures !OtherSeat(h, e, slot)
  {
  }

  lemma JoinRespGood(s: System, e: Endpoint, src: Endpoint, slot: u8, np: u8)
    requires Inv(s) && e in s.clients && Packet(src, e, JoinResp(slot, np)) in s.net
    ensures Good(s, e, C.OnJoinResp(s.clients[e], slot, np), [])
  {
    var c := s.clients[e];
    var d := C.OnJoinResp(c, slot, np);
    assert ClientInv(s, e);
    if d == c {
      NoChangeGood(s, e);
    } else {
      var i := FromServer(s, Packet(src, e, JoinResp(slot, np)));
      var h := s.server.sessions[i];
      MemberHome(s, e, i);
      HomeIs(s.server.sessions, i);
      JoinRespSeat(s, e, slot, np, h);
    }
  }

  lemma JoinRespSeat(s: System, e: Endpoint, slot: Slot, np: u8, h: R.Session)
    requires e in s.clients && ClientInv(s, e) && s.clients[e].stage == C.Joining && 2 <= np <= 4
    requires HasHome(s.server.sessions, s.clients[e].sessionId) && Home(s.server.sessions, s.clients[e].sessionId) == h
    requires h.phase != R.Free && T.SessionInv(h)
    requires R.Owns(h.peers.At(slot), e) && !R.Owns(h.peers.At(0), e) && np == h.numPlayers
    ensures Good(s, e, C.OnJoinResp(s.clients[e], slot, np), [])
  {
    var c := s.clients[e];
    var d := C.OnJoinResp(c, slot, np);
    SentNothing(s, e, d);
    JoiningIsQuiet(s, e, h);
    UnseatedNonce(h, e, slot);
    hide T.SessionInv, Home, HasHome, OtherSeat, Backed;
    assert c.peer.At(slot).nonce == 0;
    JoinRespNonces(c, slot, np);
    hide NoncesOk;
    assert forall j: Slot :: d.peer.At(j) == if j == slot then c.peer.At(j).(present := true) else c.peer.At(j);
    hide Quad.At, Quad.With;
    var t := After(s, e, d, []);
    assert Placed(t, e);
    assert ProbesOk(t, e);
    assert RoutesOk(t, e);
  }

  // -------------------------------------------------------- failing, punching

  lemma FailGood(s: System, e: Endpoint, text: string)
    requires e in s.clients && ClientInv(s, e)
    ensures Good(s, e, C.Fail(s.clients[e], text), [])
  {
    hide ClientInv, Grows;
    FrameGood(s, e, C.Fail(s.clients[e], text), []);
  }

  lemma InvClient(s: System, e: Endpoint)
    requires Inv(s) && e in s.clients
    ensures ClientInv(s, e)
  {
    hide ClientInv;
  }

  lemma StayGood(s: System, e: Endpoint, out: seq<Out>)
    requires e in s.clients && ClientInv(s, e) && NoPunch(out)
    requires forall o :: o in out ==> ClientSaid(After(s, e, s.clients[e], out), Packet(e, o.to, o.msg))
    ensures Good(s, e, s.clients[e], out)
  {
    hide ClientInv, Grows, ClientSaid, Sent, NoPunch;
    FrameGood(s, e, s.clients[e], out);
  }

  lemma AckSaid(t: System, e: Endpoint, p: Packet, to: Endpoint, id: u16, k: u8, nonce: u32)
    requires e in t.clients && p in t.net && p.src == to && p.msg.Punch? && p.msg.nonce == nonce
    ensures ClientSaid(t, Packet(e, to, PunchAck(id, k, nonce)))
  {
  }

  lemma PunchGood(s: System, e: Endpoint, p: Packet)
    requires e in s.clients && ClientInv(s, e) && p in s.net && p.msg.Punch?
    ensures Good(s, e, s.clients[e], C.OnPunch(s.clients[e], p.src, p.msg.sessionId, p.msg.nonce))
  {
    var c := s.clients[e];
    var out := C.OnPunch(c, p.src, p.msg.sessionId, p.msg.nonce);
    hide ClientInv, Grows, ClientSaid, Sent, Good;
    AckSaid(After(s, e, c, out), e, p, p.src, c.sessionId, c.localSlot, p.msg.nonce);
    StayGood(s, e, out);
  }

  // ------------------------------------------------------------ introductions

  /** Drawing the next nonce keeps all of them different. */
  lemma IntroNonces(c: C.Client, slot: Slot, d: C.Client)
    requires NoncesOk(c) && slot != c.localSlot && !c.peer.At(slot).present
    requires c.stage == d.stage && d.localSlot == c.localSlot && d.rng == C.NextRng(c)
    requires forall j: Slot :: j != slot ==> d.peer.At(j) == c.peer.At(j)
    requires d.peer.At(slot).present && d.peer.At(slot).nonce == C.NextRng(c)
    ensures NoncesOk(d)
  {
    hide XorShift.Next, Quad.At, Drawn;
    XorShift.NoShortCycle(c.rng);
    DrawOne(c, slot, d);
    FewDrawn(c, slot);
    forall j: Slot | j != slot && c.peer.At(j).nonce != 0
      ensures c.peer.At(j).nonce != d.rng
      ensures (Drawn(d) >= 2 && XorShift.Next(c.peer.At(j).nonce) == d.rng) || Drawn(d) >= 3
    {
      XorShift.NoShortCycle(c.peer.At(j).nonce);
      SomeDrawn(c, j);
    }
  }

  lemma SomeDrawn(c: C.Client, j: Slot)
    requires c.peer.At(j).nonce != 0
    ensures Drawn(c) >= 1
  {
  }

  lemma DrawOne(c: C.Client, slot: Slot, d: C.Client)
    requires forall j: Slot :: j != slot ==> d.peer.At(j) == c.peer.At(j)
    requires d.peer.At(slot).nonce != 0 && c.peer.At(slot).nonce == 0
    ensures Drawn(d) == Drawn(c) + 1
  {
    assert slot != 0 ==> d.peer.At(0) == c.peer.At(0);
    assert slot != 1 ==> d.peer.At(1) == c.peer.At(1);
    assert slot != 2 ==> d.peer.At(2) == c.peer.At(2);
    assert slot != 3 ==> d.peer.At(3) == c.peer.At(3);
  }

  lemma FewDrawn(c: C.Client, slot: Slot)
    requires slot != c.localSlot && c.peer.At(slot).nonce == 0 && c.peer.At(c.localSlot).nonce == 0
    ensures Drawn(c) <= 2
    ensures Drawn(c) == 2 ==> forall j: Slot :: c.peer.At(j).nonce == 0 ==> j == slot || j == c.localSlot
    ensures Drawn(c) == 1 ==> forall j: Slot, k: Slot :: c.peer.At(j).nonce != 0 && c.peer.At(k).nonce != 0 ==> j == k
  {
  }

  lemma IntroSeat(s: System, e: Endpoint, src: Endpoint, slot: u8, pub: Endpoint, priv: Endpoint)
    requires Inv(s) && e in s.clients && Packet(src, e, PeerIntro(slot, pub, priv)) in s.net
    ensures slot < 4
    ensures s.clients[e].stage == C.Joining ==>
      OtherSeat(Home(s.server.sessions, s.clients[e].sessionId), e, slot)
  {
    InvClient(s, e);
    var i := FromServer(s, Packet(src, e, PeerIntro(slot, pub, priv)));
    MemberHome(s, e, i);
    HomeIs(s.server.sessions, i);
    hide Inv, T.SessionInv, SessionInv, Home, HasHome, ProbesOk, RoutesOk, StartedOk, KnownOk;
  }

  /** The step in which c first hears of the peer in `slot`. */
  predicate Meets(c: C.Client, d: C.Client, slot: Slot) {
    && 1 <= C.Order(c.stage) <= 5 && slot != c.localSlot && !c.peer.At(slot).present
    && d == c.(rng := C.NextRng(c), peer := d.peer)
    && (forall j: Slot :: j != slot ==> d.peer.At(j) == c.peer.At(j))
    && d.peer.At(slot).present && d.peer.At(slot).route == -1 && d.peer.At(slot).nonce == C.NextRng(c)
    && d.peer.At(slot).reported == c.peer.At(slot).reported && d.peer.At(slot).acked == c.peer.At(slot).acked
  }

  lemma MeetPlaced(s: System, e: Endpoint, slot: Slot, d: C.Client)
    requires e in s.clients && Placed(s, e) && KnownOk(s, e) && StartedOk(s, e) && Meets(s.clients[e], d, slot)
    ensures Placed(After(s, e, d, []), e) && KnownOk(After(s, e, d, []), e) && StartedOk(After(s, e, d, []), e)
  {
    SentNothing(s, e, d);
    hide Quad.At, Quad.With, Home, HasHome, AllDecided, LobbyCode.Encode, C.NextRng, R.Grid.At, C.Known.At;
    var t := After(s, e, d, []);
    assert Placed(t, e);
    assert KnownOk(t, e);
    assert StartedOk(t, e);
  }

  lemma MeetProbes(s: System, e: Endpoint, slot: Slot, d: C.Client)
    requires e in s.clients && ProbesOk(s, e) && Meets(s.clients[e], d, slot)
    requires s.clients[e].stage == C.Joining ==> OtherSeat(Home(s.server.sessions, s.clients[e].sessionId), e, slot)
    ensures ProbesOk(After(s, e, d, []), e)
  {
    SentNothing(s, e, d);
    hide Quad.At, Home, HasHome, OtherSeat, C.NextRng, Seated;
    IntroNonces(s.clients[e], slot, d);
    hide NoncesOk;
    SameSeated(s.server.sessions, s.clients[e], d, e);
    assert C.AllPeersPresent(s.clients[e]) ==> C.AllPeersPresent(d);
  }

  lemma SameSeated(ss: seq<R.Session>, c: C.Client, d: C.Client, e: Endpoint)
    requires c.sessionId == d.sessionId && c.localSlot == d.localSlot && c.numPlayers == d.numPlayers
    ensures Seated(ss, c, e) == Seated(ss, d, e)
  {
    hide Home, HasHome, R.Owns;
  }

  lemma MeetRoutes(s: System, e: Endpoint, slot: Slot, d: C.Client)
    requires e in s.clients && RoutesOk(s, e) && Meets(s.clients[e], d, slot)
    ensures RoutesOk(After(s, e, d, []), e)
  {
    SentNothing(s, e, d);
    hide Quad.At, Home, HasHome, C.NextRng, Seated, R.Grid.At;
    SameSeated(s.server.sessions, s.clients[e], d, e);
  }

  lemma MeetGrows(c: C.Client, d: C.Client, slot: Slot)
    requires Meets(c, d, slot)
    ensures Grows(c, d)
  {
    hide Quad.At, C.NextRng;
  }

  lemma MeetGood(s: System, e: Endpoint, slot: Slot, d: C.Client)
    requires e in s.clients && ClientInv(s, e) && Meets(s.clients[e], d, slot)
    requires s.clients[e].stage == C.Joining ==> OtherSeat(Home(s.server.sessions, s.clients[e].sessionId), e, slot)
    ensures Good(s, e, d, [])
  {
    hide Placed, ProbesOk, RoutesOk, KnownOk, StartedOk, Meets, Grows, OtherSeat, Home;
    MeetPlaced(s, e, slot, d);
    MeetProbes(s, e, slot, d);
    MeetRoutes(s, e, slot, d);
    MeetGrows(s.clients[e], d, slot);
  }

  lemma IntroCases(c: C.Client, now: u32, slot: u8, pub: Endpoint, priv: Endpoint)
    ensures var d := C.OnPeerIntro(c, now, slot, pub, priv);
      d == c || (slot < 4 && (Meets(c, d, slot)
        || (SameSeat(c, d) && SamePeers(c, d) && d == c.(peer := d.peer) && c.stage != C.Ready)))
  {
    hide C.AllPeersPresent, C.NextRng;
    var d := C.OnPeerIntro(c, now, slot, pub, priv);
    if d != c && c.peer.At(slot).present {
      assert forall j: Slot :: SameMarks(c.peer.At(j), d.peer.At(j));
      assert SameMarks(c.peer.At(0), d.peer.At(0)) && SameMarks(c.peer.At(1), d.peer.At(1))
             && SameMarks(c.peer.At(2), d.peer.At(2)) && SameMarks(c.peer.At(3), d.peer.At(3));
    }
  }

  lemma PeerIntroGood(s: System, e: Endpoint, now: u32, slot: u8, pub: Endpoint, priv: Endpoint)
    requires e in s.clients && ClientInv(s, e)
    requires slot < 4 && s.clients[e].stage == C.Joining ==>
      OtherSeat(Home(s.server.sessions, s.clients[e].sessionId), e, slot)
    ensures Good(s, e, C.OnPeerIntro(s.clients[e], now, slot, pub, priv), [])
  {
    var c := s.clients[e];
    var d := C.OnPeerIntro(c, now, slot, pub, priv);
    hide ClientInv, Good, OtherSeat, Home, Grows, C.AllPeersPresent, C.NextRng, C.OnPeerIntro, Meets, SameSeat,
      SamePeers;
    IntroCases(c, now, slot, pub, priv);
    if d == c {
      NoChangeGood(s, e);
    } else if Meets(c, d, slot) {
      MeetGood(s, e, slot, d);
    } else {
      FrameGood(s, e, d, []);
    }
  }
}
