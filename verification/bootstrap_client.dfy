// Every client step of the bootstrap keeps the invariant.

module BootstrapClient {
  import opened Basics
  import opened LobbyTypes
  import opened Bootstrap
  import R = Rendezvous
  import T = RendezvousTable
  import C = LobbyClient
  import LobbyCode
  import XorShift

  /** What every client step does: nothing reported is unsaid, nothing settled changes. */
  predicate Grows(c: C.Client, d: C.Client) {
    && d.isHost == c.isHost
    && (c.sessionId != 0 ==> d.sessionId == c.sessionId)
    && (c.isHost ==> C.Params(d) == C.Params(c))
    && (forall j: Slot :: c.peer.At(j).reported ==> d.peer.At(j).reported && d.localSlot == c.localSlot)
    && (forall j: Slot :: c.peer.At(j).acked ==> d.peer.At(j).acked)
  }

  lemma OtherPlaced(s: System, e: Endpoint, d: C.Client, out: seq<Out>, f: Endpoint)
    requires e in s.clients && Grows(s.clients[e], d) && f in s.clients && f != e && Placed(s, f)
    ensures Placed(After(s, e, d, out), f)
  {
    hide Seated, C.Params, Home, HasHome, Sent, Quad.At;
  }

  lemma OtherProbes(s: System, e: Endpoint, d: C.Client, out: seq<Out>, f: Endpoint)
    requires e in s.clients && f in s.clients && f != e && ProbesOk(s, f)
    ensures ProbesOk(After(s, e, d, out), f)
  {
    hide Seated, NoncesOk, C.AllPeersPresent, Home, OtherSeat, Quad.At;
  }

  lemma OtherRoutes(s: System, e: Endpoint, d: C.Client, out: seq<Out>, f: Endpoint)
    requires e in s.clients && f in s.clients && f != e && RoutesOk(s, f)
    ensures RoutesOk(After(s, e, d, out), f)
  {
    hide Seated, Backed, Quad.At;
  }

  lemma OtherStarted(s: System, e: Endpoint, d: C.Client, out: seq<Out>, f: Endpoint)
    requires e in s.clients && f in s.clients && f != e && StartedOk(s, f) && Grows(s.clients[e], d)
    requires s.clients[f].startSeen && Home(s.server.sessions, s.clients[f].sessionId).peers.At(0).publicEp == e ==>
      s.clients[e].isHost
    ensures StartedOk(After(s, e, d, out), f)
  {
    hide Seated, C.Params, Home, AllDecided, C.FillResult, C.LocalRoutesDecided, Sent, Quad.At;
  }

  /** The endpoint in slot 0 of the session a client means is a host's. */
  lemma HomeHost(s: System, f: Endpoint)
    requires Inv(s) && f in s.clients && HasHome(s.server.sessions, s.clients[f].sessionId)
    ensures var h := Home(s.server.sessions, s.clients[f].sessionId);
      h.peers.At(0).publicEp in s.clients && s.clients[h.peers.At(0).publicEp].isHost
  {
    HomeFacts(s, f);
  }

  lemma OtherKnown(s: System, e: Endpoint, d: C.Client, out: seq<Out>, f: Endpoint)
    requires e in s.clients && f in s.clients && f != e && KnownOk(s, f)
    ensures KnownOk(After(s, e, d, out), f)
  {
    hide C.Known.At, R.Grid.At, Home;
  }

  lemma OtherKeeps(s: System, e: Endpoint, d: C.Client, out: seq<Out>, f: Endpoint)
    requires Inv(s) && e in s.clients && Grows(s.clients[e], d) && f in s.clients && f != e
    ensures ClientInv(After(s, e, d, out), f)
  {
    assert ClientInv(s, f);
    if s.clients[f].startSeen {
      HomeHost(s, f);
    }
    hide Inv, Placed, ProbesOk, RoutesOk, StartedOk, KnownOk, Home, HasHome, Grows, Quad.At, After;
    OtherPlaced(s, e, d, out, f);
    OtherProbes(s, e, d, out, f);
    OtherRoutes(s, e, d, out, f);
    OtherStarted(s, e, d, out, f);
    OtherKnown(s, e, d, out, f);
  }

  lemma SessionKeeps(s: System, e: Endpoint, d: C.Client, out: seq<Out>, h: R.Session)
    requires e in s.clients && Grows(s.clients[e], d) && SessionInv(s, h) && h.phase != R.Free
    requires s.clients[e].sessionId == 0 ==> s.clients[e].isHost
    requires T.SessionInv(h)
    ensures SessionInv(After(s, e, d, out), h)
  {
    hide Home, AllDecided, Sent, Quad.At, R.Grid.At, T.CellsOk;
    var t := After(s, e, d, out);
    assert MembersOk(t, h);
    assert StartOk(t, h);
    assert TalkOk(t, h);
  }

  lemma ClientPacketKeeps(s: System, e: Endpoint, d: C.Client, out: seq<Out>, p: Packet)
    requires e in s.clients && Grows(s.clients[e], d) && p.src in s.clients && ClientSaid(s, p)
    requires s.clients[e].sessionId == 0 ==>
      s.clients[e].isHost && forall j: Slot :: !s.clients[e].peer.At(j).reported
    ensures ClientSaid(After(s, e, d, out), p)
  {
    hide Home, AllDecided, Quad.At;
    if p.msg.PunchAck? {
      var q :| q in s.net && q.src == p.dst && q.msg.Punch? && q.msg.nonce == p.msg.nonce;
      assert q in After(s, e, d, out).net;
    }
  }

  lemma StartStaysTrue(s: System, e: Endpoint, d: C.Client, out: seq<Out>, dst: Endpoint, p: StartParams)
    requires e in s.clients && Grows(s.clients[e], d) && StartTrue(s, dst, p)
    requires forall i :: 0 <= i < |s.server.sessions| ==> SessionInv(s, s.server.sessions[i])
    ensures StartTrue(After(s, e, d, out), dst, p)
  {
    var i :| 0 <= i < |s.server.sessions| && StartOf(s, i, dst, p);
    assert SessionInv(s, s.server.sessions[i]);
    hide T.Member, Home, AllDecided, Sent, TalkOk, StartOk, Quad.At;
    assert StartOf(After(s, e, d, out), i, dst, p);
  }

  lemma SelfFacts(s: System, e: Endpoint)
    requires Inv(s) && e in s.clients
    ensures e != s.ep && ClientInv(s, e)
    ensures s.clients[e].sessionId == 0 ==>
      s.clients[e].isHost && forall j: Slot :: !s.clients[e].peer.At(j).reported
  {
    assert ClientInv(s, e);
  }

  lemma PacketKeeps(s: System, e: Endpoint, d: C.Client, out: seq<Out>, p: Packet)
    requires Inv(s) && e in s.clients && Grows(s.clients[e], d) && p in s.net
    ensures PacketInv(After(s, e, d, out), p)
  {
    SelfFacts(s, e);
    assert PacketInv(s, p);
    hide ClientInv, SessionInv, T.Vouched, T.TableInv, ClientSaid, StartTrue, Grows, Sent;
    if p.src != s.ep {
      ClientPacketKeeps(s, e, d, out, p);
    } else if p.msg.Start? {
      StartStaysTrue(s, e, d, out, p.dst, p.msg.params);
    }
  }

  lemma ClientsKeep(s: System, e: Endpoint, d: C.Client, out: seq<Out>)
    requires Inv(s) && e in s.clients && Grows(s.clients[e], d)
    requires ClientInv(After(s, e, d, out), e)
    ensures forall f :: f in After(s, e, d, out).clients ==> ClientInv(After(s, e, d, out), f)
  {
    hide Inv, ClientInv, Grows, Sent;
    var t := After(s, e, d, out);
    forall f | f in t.clients ensures ClientInv(t, f) {
      if f != e {
        OtherKeeps(s, e, d, out, f);
      }
    }
  }

  lemma PacketsKeep(s: System, e: Endpoint, d: C.Client, out: seq<Out>)
    requires Inv(s) && e in s.clients && Grows(s.clients[e], d)
    requires forall o :: o in out ==> ClientSaid(After(s, e, d, out), Packet(e, o.to, o.msg))
    ensures forall p :: p in After(s, e, d, out).net ==> PacketInv(After(s, e, d, out), p)
  {
    SelfFacts(s, e);
    hide Inv, PacketInv, ClientInv, ClientSaid, Grows, Sent;
    var t := After(s, e, d, out);
    forall p | p in t.net ensures PacketInv(t, p) {
      if p in s.net {
        PacketKeeps(s, e, d, out, p);
      } else {
        NewPacket(s, e, d, out, p);
      }
    }
  }

  lemma SessionsKeep(s: System, e: Endpoint, d: C.Client, out: seq<Out>)
    requires Inv(s) && e in s.clients && Grows(s.clients[e], d)
    ensures forall i :: 0 <= i < |s.server.sessions| ==> SessionInv(After(s, e, d, out), s.server.sessions[i])
  {
    hide Inv, SessionInv, Grows;
    forall i | 0 <= i < |s.server.sessions| ensures SessionInv(After(s, e, d, out), s.server.sessions[i]) {
      SessionKeepsIn(s, e, d, out, i);
    }
  }

  /** A client step keeps everything, provided it keeps the client's own
      invariant and only says true things. */
  lemma StepKeeps(s: System, e: Endpoint, d: C.Client, out: seq<Out>)
    requires Inv(s) && e in s.clients && Grows(s.clients[e], d)
    requires ClientInv(After(s, e, d, out), e)
    requires forall o :: o in out ==> ClientSaid(After(s, e, d, out), Packet(e, o.to, o.msg))
    ensures Inv(After(s, e, d, out))
  {
    hide ClientInv, SessionInv, PacketInv, ClientSaid, T.TableInv, Grows, Sent;
    ClientsKeep(s, e, d, out);
    SessionsKeep(s, e, d, out);
    PacketsKeep(s, e, d, out);
  }

  lemma SessionKeepsIn(s: System, e: Endpoint, d: C.Client, out: seq<Out>, i: nat)
    requires Inv(s) && e in s.clients && Grows(s.clients[e], d) && i < |s.server.sessions|
    ensures SessionInv(After(s, e, d, out), s.server.sessions[i])
  {
    var h := s.server.sessions[i];
    assert SessionInv(s, h) && T.SessionInv(h) && ClientInv(s, e);
    if h.phase != R.Free {
      hide Inv;
      SessionKeeps(s, e, d, out, h);
    }
  }

  lemma NewPacket(s: System, e: Endpoint, d: C.Client, out: seq<Out>, p: Packet)
    requires e in s.clients && e != s.ep && p in Sent(e, out)
    requires forall o :: o in out ==> ClientSaid(After(s, e, d, out), Packet(e, o.to, o.msg))
    ensures PacketInv(After(s, e, d, out), p)
  {
    hide ClientSaid;
  }

  // ------------------------------------------------- what a packet tells us

  lemma HomeIs(ss: seq<R.Session>, i: nat)
    requires T.TableInv(ss) && i < |ss| && ss[i].phase != R.Free
    ensures HasHome(ss, ss[i].id) && Home(ss, ss[i].id) == ss[i]
  {
    assert T.SessionInv(ss[i]);
    assert R.HasId(ss[i], ss[i].id);
    hide T.SessionInv;
  }

  /** A live session a client belongs to is the one it means, except that a
      host may own further sessions without other members. */
  lemma MemberHome(s: System, e: Endpoint, i: nat)
    requires Inv(s) && e in s.clients && i < |s.server.sessions| && s.server.sessions[i].phase != R.Free
    requires T.Member(s.server.sessions[i], e)
    ensures var h := s.server.sessions[i];
      var c := s.clients[e];
      && T.SessionInv(h) && SessionInv(s, h)
      && (!c.isHost ==> c.sessionId == h.id && !R.Owns(h.peers.At(0), e))
      && (c.isHost ==> R.Owns(h.peers.At(0), e))
      && (!c.isHost || h.joined > 1 ==> c.sessionId == h.id && Home(s.server.sessions, c.sessionId) == h)
  {
    HomeIs(s.server.sessions, i);
    var h := s.server.sessions[i];
    assert SessionInv(s, h) && T.SessionInv(h);
    hide Inv, StartOk, TalkOk, T.CellsOk, Home, HasHome;
  }

  predicate LiveTruth(ss: seq<R.Session>, i: nat, o: Out) {
    i < |ss| && ss[i].phase != R.Free && T.Truthful(ss[i], o)
  }

  lemma ServerOnly(s: System, p: Packet)
    requires PacketInv(s, p)
    requires p.msg.HostResp? || p.msg.JoinResp? || p.msg.PeerIntro? || p.msg.PairRoute?
    ensures p.src == s.ep && exists i :: LiveTruth(s.server.sessions, i, Out(p.dst, p.msg))
  {
    hide StartTrue, T.Truthful;
    var i :| 0 <= i < |s.server.sessions| && s.server.sessions[i].phase != R.Free
             && T.Truthful(s.server.sessions[i], Out(p.dst, p.msg));
    assert LiveTruth(s.server.sessions, i, Out(p.dst, p.msg));
  }

  /** Which session a server message speaks for. */
  lemma FromServer(s: System, p: Packet) returns (i: nat)
    requires Inv(s) && p in s.net
    requires p.msg.HostResp? || p.msg.JoinResp? || p.msg.PeerIntro? || p.msg.PairRoute?
    ensures LiveTruth(s.server.sessions, i, Out(p.dst, p.msg))
  {
    assert PacketInv(s, p);
    hide Inv, PacketInv, LiveTruth;
    ServerOnly(s, p);
    i :| LiveTruth(s.server.sessions, i, Out(p.dst, p.msg));
  }

  lemma CellJoined(h: R.Session, a: Slot, b: Slot)
    requires T.SessionInv(h) && h.phase != R.Free && h.pairs.At(a, b).routeSent
    ensures h.joined > 1 && h.pairs.At(b, a).routeSent
      && h.pairs.At(b, a).route == h.pairs.At(a, b).route <= ROUTE_RELAY
  {
  }

  // ----------------------------------------------------------------- frames

  /** The step from c to d with these sends satisfies StepKeeps' premises. */
  predicate Good(s: System, e: Endpoint, d: C.Client, out: seq<Out>)
    requires e in s.clients
  {
    && Grows(s.clients[e], d)
    && ClientInv(After(s, e, d, out), e)
    && forall o :: o in out ==> ClientSaid(After(s, e, d, out), Packet(e, o.to, o.msg))
  }

  predicate SameSeat(c: C.Client, d: C.Client) {
    && d.isHost == c.isHost && d.server == c.server && d.sessionId == c.sessionId && d.localSlot == c.localSlot
    && d.numPlayers == c.numPlayers && d.code == c.code && d.rng == c.rng
    && (d.stage == c.stage || d.stage == C.Failed
        || (3 <= C.Order(c.stage) <= C.Order(d.stage) <= 6 && (d.stage == C.Punching ==> C.AllPeersPresent(d))))
  }

  predicate SameMarks(p: C.Peer, q: C.Peer) {
    q.present == p.present && q.nonce == p.nonce && q.acked == p.acked && q.reported == p.reported && q.route == p.route
  }

  predicate SamePeers(c: C.Client, d: C.Client) {
    && SameMarks(c.peer.x0, d.peer.x0) && SameMarks(c.peer.x1, d.peer.x1)
    && SameMarks(c.peer.x2, d.peer.x2) && SameMarks(c.peer.x3, d.peer.x3)
  }

  predicate NoPunch(out: seq<Out>) {
    forall o :: o in out ==> !o.msg.Punch?
  }

  lemma PlacedFrame(s: System, e: Endpoint, d: C.Client, out: seq<Out>)
    requires e in s.clients && Placed(s, e) && SameSeat(s.clients[e], d)
    ensures Placed(After(s, e, d, out), e)
  {
    hide Home, HasHome, Sent, Quad.At, C.AllPeersPresent;
  }

  lemma SameNonces(c: C.Client, d: C.Client)
    requires NoncesOk(c) && SameSeat(c, d) && SamePeers(c, d)
    ensures NoncesOk(d)
  {
    hide C.AllPeersPresent;
    assert forall j: Slot :: SameMarks(c.peer.At(j), d.peer.At(j));
  }

  lemma ProbesFrame(s: System, e: Endpoint, d: C.Client, out: seq<Out>)
    requires e in s.clients && ProbesOk(s, e) && SameSeat(s.clients[e], d) && SamePeers(s.clients[e], d) && NoPunch(out)
    ensures ProbesOk(After(s, e, d, out), e)
  {
    var c := s.clients[e];
    SameNonces(c, d);
    assert forall j: Slot :: SameMarks(c.peer.At(j), d.peer.At(j));
    hide Home, HasHome, NoncesOk, Quad.At;
    if d.stage == C.Punching {
      assert C.AllPeersPresent(d);
    }
  }

  lemma RoutesFrame(s: System, e: Endpoint, d: C.Client, out: seq<Out>)
    requires e in s.clients && RoutesOk(s, e) && SameSeat(s.clients[e], d) && SamePeers(s.clients[e], d) && NoPunch(out)
    ensures RoutesOk(After(s, e, d, out), e)
  {
    var c := s.clients[e];
    assert forall j: Slot :: SameMarks(c.peer.At(j), d.peer.At(j));
    hide Home, HasHome, Quad.At, R.Grid.At, C.AllPeersPresent;
  }

  lemma KnownFrame(s: System, e: Endpoint, d: C.Client, out: seq<Out>)
    requires e in s.clients && KnownOk(s, e)
    requires d.isHost == s.clients[e].isHost && d.sessionId == s.clients[e].sessionId && d.known == s.clients[e].known
    ensures KnownOk(After(s, e, d, out), e)
  {
    hide Home, C.Known.At, R.Grid.At, Sent;
  }

  lemma StartedFrame(s: System, e: Endpoint, d: C.Client, out: seq<Out>)
    requires e in s.clients && StartedOk(s, e) && SameSeat(s.clients[e], d)
    requires d.startSeen == s.clients[e].startSeen && C.Params(d) == C.Params(s.clients[e])
    requires d.stage != C.Ready || (d.stage == s.clients[e].stage && d.result == s.clients[e].result
      && d.peer == s.clients[e].peer)
    ensures StartedOk(After(s, e, d, out), e)
  {
    hide Home, HasHome, Quad.At, AllDecided, Sent, C.AllPeersPresent;
  }

  lemma GrowsFrame(c: C.Client, d: C.Client)
    requires SameSeat(c, d) && SamePeers(c, d) && C.Params(d) == C.Params(c)
    ensures Grows(c, d)
  {
    assert forall j: Slot :: SameMarks(c.peer.At(j), d.peer.At(j));
  }

  /** Steps that leave seat, marks, known pairs and START alone. */
  lemma FrameGood(s: System, e: Endpoint, d: C.Client, out: seq<Out>)
    requires e in s.clients && ClientInv(s, e)
    requires SameSeat(s.clients[e], d) && SamePeers(s.clients[e], d) && NoPunch(out)
    requires d.known == s.clients[e].known && d.startSeen == s.clients[e].startSeen
      && C.Params(d) == C.Params(s.clients[e])
    requires d.stage != C.Ready || (d.stage == s.clients[e].stage && d.result == s.clients[e].result
      && d.peer == s.clients[e].peer)
    requires forall o :: o in out ==> ClientSaid(After(s, e, d, out), Packet(e, o.to, o.msg))
    ensures Good(s, e, d, out)
  {
    PlacedFrame(s, e, d, out);
    ProbesFrame(s, e, d, out);
    RoutesFrame(s, e, d, out);
    KnownFrame(s, e, d, out);
    StartedFrame(s, e, d, out);
    GrowsFrame(s.clients[e], d);
    hide Placed, ProbesOk, RoutesOk, KnownOk, StartedOk, SamePeers, SameSeat, ClientSaid, Grows, After;
  }
}
