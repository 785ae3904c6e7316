// The client's other steps: beginning as host or joiner, forcing the relay,
// answering after READY, and sending game traffic.

module BootstrapSteps {
  import opened Basics
  import opened LobbyTypes
  import opened Bootstrap
  import opened BootstrapClient
  import opened BootstrapReceive
  import opened BootstrapPoll
  import BootstrapSettle
  import R = Rendezvous
  import T = RendezvousTable
  import C = LobbyClient
  import LobbyCode

  lemma RelayTrue(t: System, e: Endpoint, o: Out)
    requires e in t.clients && (o.msg.Relay? || o.msg.Game?)
    ensures ClientSaid(t, Packet(e, o.to, o.msg))
  {
  }

  lemma GameSendKeeps(s: System, e: Endpoint, o: Out)
    requires Inv(s) && e in s.clients && (o.msg.Relay? || o.msg.Game?)
    ensures Inv(After(s, e, s.clients[e], [o]))
  {
    hide Inv, ClientInv, Good, ClientSaid, Sent;
    InvClient(s, e);
    RelayTrue(After(s, e, s.clients[e], [o]), e, o);
    StayGood(s, e, [o]);
    GoodKeeps(s, e, s.clients[e], [o]);
  }

  lemma PostKeeps(s: System, e: Endpoint, from: Endpoint, m: Msg)
    requires Inv(s) && e in s.clients && Packet(from, e, m) in s.net
    ensures Inv(After(s, e, s.clients[e], C.PostReceive(s.clients[e], from, m)))
  {
    hide Inv, ClientInv, Good, ClientSaid, Sent;
    InvClient(s, e);
    var c := s.clients[e];
    var out := C.PostReceive(c, from, m);
    var t := After(s, e, c, out);
    if out == [] {
      NoChangeGood(s, e);
    } else if m.Start? {
      BootstrapSettle.AckTrue(t, e, C.StartAckOf(c));
      StayGood(s, e, out);
    } else {
      AckSaid(t, e, Packet(from, e, m), from, c.sessionId, c.localSlot, m.nonce);
      StayGood(s, e, out);
    }
    GoodKeeps(s, e, c, out);
  }

  lemma ForceKeeps(s: System, e: Endpoint)
    requires Inv(s) && e in s.clients
    ensures Inv(After(s, e, C.SetForcedRelay(s.clients[e]), []))
  {
    hide Inv, ClientInv, Good, ClientSaid, Sent;
    InvClient(s, e);
    TicksGood(s, e, C.SetForcedRelay(s.clients[e]), []);
    GoodKeeps(s, e, C.SetForcedRelay(s.clients[e]), []);
  }

  // ------------------------------------------------------------- newcomers

  lemma NewPlaced(s: System, e: Endpoint, d: C.Client, out: seq<Out>, f: Endpoint)
    requires e !in s.clients && f in s.clients && Placed(s, f)
    ensures Placed(After(s, e, d, out), f)
  {
    hide Seated, Shape, Home, HasHome, Sent, Quad.At;
  }

  lemma NewProbes(s: System, e: Endpoint, d: C.Client, out: seq<Out>, f: Endpoint)
    requires e !in s.clients && f in s.clients && ProbesOk(s, f)
    ensures ProbesOk(After(s, e, d, out), f)
  {
    hide Seated, NoncesOk, C.AllPeersPresent, Home, OtherSeat, Quad.At;
  }

  lemma NewRoutes(s: System, e: Endpoint, d: C.Client, out: seq<Out>, f: Endpoint)
    requires e !in s.clients && f in s.clients && RoutesOk(s, f)
    ensures RoutesOk(After(s, e, d, out), f)
  {
    hide Seated, Backed, Quad.At;
  }

  lemma NewStarted(s: System, e: Endpoint, d: C.Client, out: seq<Out>, f: Endpoint)
    requires e !in s.clients && f in s.clients && StartedOk(s, f) && KnownOk(s, f)
    ensures StartedOk(After(s, e, d, out), f) && KnownOk(After(s, e, d, out), f)
  {
    hide Seated, C.Params, Home, AllDecided, C.FillResult, C.LocalRoutesDecided, Sent, Quad.At, R.Grid.At, C.Known.At;
    assert StartedOk(After(s, e, d, out), f);
    assert KnownOk(After(s, e, d, out), f);
  }

  lemma NewClient(s: System, e: Endpoint, d: C.Client, out: seq<Out>, f: Endpoint)
    requires e !in s.clients && f in s.clients && ClientInv(s, f)
    ensures ClientInv(After(s, e, d, out), f)
  {
    hide Placed, ProbesOk, RoutesOk, StartedOk, KnownOk, After;
    NewPlaced(s, e, d, out, f);
    NewProbes(s, e, d, out, f);
    NewRoutes(s, e, d, out, f);
    NewStarted(s, e, d, out, f);
  }

  lemma NewSession(s: System, e: Endpoint, d: C.Client, out: seq<Out>, h: R.Session)
    requires e !in s.clients && SessionInv(s, h)
    ensures SessionInv(After(s, e, d, out), h)
  {
    hide Home, AllDecided, Sent, Quad.At, R.Grid.At, C.Params;
    if h.phase != R.Free {
      var t := After(s, e, d, out);
      assert MembersOk(t, h);
      assert StartOk(t, h);
      assert TalkOk(t, h);
    }
  }

  lemma OldSaid(s: System, e: Endpoint, d: C.Client, out: seq<Out>, p: Packet)
    requires e !in s.clients && p.src in s.clients && ClientSaid(s, p)
    ensures ClientSaid(After(s, e, d, out), p)
  {
    hide Home, AllDecided, Quad.At;
    if p.msg.PunchAck? {
      var q :| q in s.net && q.src == p.dst && q.msg.Punch? && q.msg.nonce == p.msg.nonce;
      assert q in After(s, e, d, out).net;
    }
  }

  lemma OldStart(s: System, e: Endpoint, d: C.Client, out: seq<Out>, dst: Endpoint, p: StartParams)
    requires e !in s.clients && StartTrue(s, dst, p)
    ensures StartTrue(After(s, e, d, out), dst, p)
  {
    var i :| 0 <= i < |s.server.sessions| && StartOf(s, i, dst, p);
    hide T.Member, Sent, Quad.At, C.Params;
    assert StartOf(After(s, e, d, out), i, dst, p);
  }

  lemma OldPacket(s: System, e: Endpoint, d: C.Client, out: seq<Out>, p: Packet)
    requires e !in s.clients && PacketInv(s, p)
    ensures PacketInv(After(s, e, d, out), p)
  {
    hide T.Vouched, ClientSaid, StartTrue, Sent;
    if p.src != s.ep {
      OldSaid(s, e, d, out, p);
    } else if p.msg.Start? {
      OldStart(s, e, d, out, p.dst, p.msg.params);
    }
  }

  /** A new client that starts out right disturbs nothing. */
  lemma AddKeeps(s: System, e: Endpoint, d: C.Client, out: seq<Out>)
    requires Inv(s) && e !in s.clients && e != s.ep
    requires ClientInv(After(s, e, d, out), e)
    requires forall o :: o in out ==> ClientSaid(After(s, e, d, out), Packet(e, o.to, o.msg))
    ensures Inv(After(s, e, d, out))
  {
    hide ClientInv, SessionInv, PacketInv, ClientSaid, T.TableInv, Sent;
    var t := After(s, e, d, out);
    forall f | f in t.clients ensures ClientInv(t, f) {
      if f != e {
        NewClient(s, e, d, out, f);
      }
    }
    forall i | 0 <= i < |s.server.sessions| ensures SessionInv(t, s.server.sessions[i]) {
      NewSession(s, e, d, out, s.server.sessions[i]);
    }
    forall p | p in t.net ensures PacketInv(t, p) {
      if p in s.net {
        OldPacket(s, e, d, out, p);
      } else {
        NewSaid(s, e, d, out, p);
      }
    }
  }

  lemma NewSaid(s: System, e: Endpoint, d: C.Client, out: seq<Out>, p: Packet)
    requires e != s.ep && p in Sent(e, out)
    requires forall o :: o in out ==> ClientSaid(After(s, e, d, out), Packet(e, o.to, o.msg))
    ensures PacketInv(After(s, e, d, out), p)
  {
    hide ClientSaid;
  }

  lemma NobodySpoke(s: System, e: Endpoint, p: Packet)
    requires Inv(s) && e !in s.clients && e != s.ep && p in s.net
    ensures p.src != e
  {
    hide ClientInv, SessionInv, T.TableInv, ClientSaid;
    assert PacketInv(s, p);
  }

  /** The state both begin functions share. */
  predicate Newborn(c: C.Client) {
    && c.rng != 0 && c.localSlot == 0 && c.peer == Same(C.NO_PEER) && c.known == C.NOTHING_KNOWN
    && !c.startSeen && 1 <= C.Order(c.stage) <= 2
  }

  lemma NewbornRest(s: System, e: Endpoint, d: C.Client, out: seq<Out>)
    requires Inv(s) && e !in s.clients && e != s.ep && Newborn(d) && NoPunch(out)
    ensures var t := After(s, e, d, out); ProbesOk(t, e) && RoutesOk(t, e) && KnownOk(t, e) && StartedOk(t, e)
  {
    forall p | p in s.net ensures p.src != e {
      NobodySpoke(s, e, p);
    }
    NewbornProbes(s, e, d, out);
    hide Inv, Home, HasHome, ProbesOk, NoncesOk, R.Grid.At, Sent, AllDecided, R.Owns;
    assert forall j: Slot :: d.peer.At(j) == C.NO_PEER;
    assert forall a: Slot, b: Slot :: !d.known.At(a, b);
    hide Quad.At, C.Known.At;
  }

  lemma NewbornProbes(s: System, e: Endpoint, d: C.Client, out: seq<Out>)
    requires Newborn(d) && NoPunch(out) && forall p :: p in s.net ==> p.src != e
    ensures ProbesOk(After(s, e, d, out), e)
  {
    hide Home, HasHome, R.Owns;
    assert forall j: Slot :: d.peer.At(j) == C.NO_PEER;
  }

  lemma HostBegins(s: System, e: Endpoint, d: C.Client, out: seq<Out>)
    requires Inv(s) && e !in s.clients && e != s.ep && Newborn(d)
    requires d.isHost && d.sessionId == 0 && d.stage == C.Registering && d.code == "" && d.server == s.ep
    requires 2 <= d.numPlayers <= 4 && out == [C.HostReqOf(d)]
    ensures Inv(After(s, e, d, out))
  {
    NewbornRest(s, e, d, out);
    HostReqSaid(After(s, e, d, out), e, out[0], d);
    assert Placed(After(s, e, d, out), e) by { hide Inv, ClientSaid, Sent; }
    hide Inv, Placed, ProbesOk, RoutesOk, KnownOk, StartedOk, ClientSaid, Newborn, Sent;
    AddKeeps(s, e, d, out);
  }

  /** The host whose code was typed is in its session's slot 0. */
  lemma CodeHost(s: System, host: Endpoint)
    requires Inv(s) && host in s.clients && s.clients[host].isHost && s.clients[host].sessionId != 0
    ensures var id := s.clients[host].sessionId;
      HasHome(s.server.sessions, id) && Home(s.server.sessions, id).peers.At(0).publicEp == host
    ensures s.clients[host].code == LobbyCode.Encode(s.ep, s.clients[host].sessionId)
  {
    InvClient(s, host);
    hide Inv, ProbesOk, RoutesOk, KnownOk, StartedOk, Home, HasHome, LobbyCode.Encode;
  }

  lemma UnknownCode(s: System, host: Endpoint)
    requires Inv(s) && host in s.clients && s.clients[host].isHost && s.clients[host].sessionId == 0
    ensures s.clients[host].code == ""
  {
    InvClient(s, host);
    hide Inv, ProbesOk, RoutesOk, KnownOk, StartedOk, Home, HasHome, LobbyCode.Encode, Seated;
  }

  lemma NoEmptyCode()
    ensures LobbyCode.Decode("") == None
  {
  }

  lemma JoinPlaced(s: System, e: Endpoint, d: C.Client, out: seq<Out>, host: Endpoint)
    requires e !in s.clients && e != s.ep && Newborn(d) && host in s.clients
    requires HasHome(s.server.sessions, d.sessionId)
      && Home(s.server.sessions, d.sessionId).peers.At(0).publicEp == host
    requires s.clients[host].sessionId == d.sessionId != 0
    requires !d.isHost && d.stage == C.Joining && d.server == s.ep
    ensures Placed(After(s, e, d, out), e)
  {
    hide Sent, Home, HasHome, Seated, Quad.At;
  }

  lemma JoinBegins(s: System, e: Endpoint, d: C.Client, out: seq<Out>, host: Endpoint)
    requires Inv(s) && e !in s.clients && e != s.ep && Newborn(d) && host in s.clients
    requires HasHome(s.server.sessions, d.sessionId)
      && Home(s.server.sessions, d.sessionId).peers.At(0).publicEp == host
    requires s.clients[host].sessionId == d.sessionId != 0
    requires !d.isHost && d.stage == C.Joining && d.server == s.ep && out == [C.JoinReqOf(d)]
    ensures Inv(After(s, e, d, out))
  {
    hide Inv, Placed, ProbesOk, RoutesOk, KnownOk, StartedOk, ClientSaid, Newborn, Sent, HasHome, Home;
    NewbornRest(s, e, d, out);
    JoinReqSaid(After(s, e, d, out), e, out[0], d);
    JoinPlaced(s, e, d, out, host);
    AddKeeps(s, e, d, out);
  }

  lemma HostStartKeeps(s: System, step: Step)
    requires Inv(s) && step.HostStart? && Enabled(s, step)
    ensures Inv(Apply(s, step))
  {
    hide Inv, After, Newborn;
    var r := C.HostBegin(step.now, step.rng, s.ep, step.privateEp, step.netVersion, step.p).value;
    BornHost(step.now, step.rng, s.ep, step.privateEp, step.netVersion, step.p);
    HostBegins(s, step.e, r.0, r.1);
  }

  lemma BornHost(now: u32, rng: bv32, server: Endpoint, priv: Endpoint, ver: u32, p: StartParams)
    requires 2 <= p.numPlayers <= 4
    ensures var r := C.HostBegin(now, rng, server, priv, ver, p); r.Some? && Newborn(r.value.0)
  {
  }

  lemma BornJoiner(now: u32, rng: bv32, priv: Endpoint, ver: u32, code: string)
    requires LobbyCode.Decode(code).Some?
    ensures var r := C.JoinBegin(now, rng, priv, ver, code); r.Some? && Newborn(r.value.0)
  {
    hide LobbyCode.Decode;
  }

  lemma JoinStartKeeps(s: System, step: Step)
    requires Inv(s) && step.JoinStart? && Enabled(s, step)
    ensures Inv(Apply(s, step))
  {
    hide Inv, After, Newborn, LobbyCode.Decode, LobbyCode.Encode, Home, HasHome;
    var host := step.host;
    NoEmptyCode();
    if s.clients[host].sessionId == 0 {
      UnknownCode(s, host);
      assert false;
    }
    CodeHost(s, host);
    LobbyCode.CodeRoundTrip(s.ep, s.clients[host].sessionId);
    var code := s.clients[host].code;
    var r := C.JoinBegin(step.now, step.rng, step.privateEp, step.netVersion, code).value;
    BornJoiner(step.now, step.rng, step.privateEp, step.netVersion, code);
    JoinBegins(s, step.e, r.0, r.1, host);
  }
}
