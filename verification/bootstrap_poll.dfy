// One poll of a client: every received message, then every duty, keeps the
// bootstrap's invariant.

module BootstrapPoll {
  import opened Basics
  import opened LobbyTypes
  import opened Bootstrap
  import opened BootstrapClient
  import opened BootstrapReceive
  import opened BootstrapSettle
  import R = Rendezvous
  import T = RendezvousTable
  import C = LobbyClient

  // --------------------------------------------------------------- the drain

  lemma PacketIn(s: System, p: Packet)
    requires Inv(s) && p in s.net
    ensures PacketInv(s, p)
  {
    hide ClientInv, SessionInv, PacketInv, T.TableInv;
  }

  /** StartTrue turned into what the receiver may conclude. */
  lemma StartHeard(s: System, e: Endpoint, src: Endpoint, p: StartParams)
    requires Inv(s) && e in s.clients && Packet(src, e, Start(p)) in s.net && 3 <= C.Order(s.clients[e].stage) <= 5
    ensures Called(s, e, p)
  {
    hide ClientInv, SessionInv, PacketInv, T.TableInv, StartTrue, Called, StartOf, Inv;
    PacketIn(s, Packet(src, e, Start(p)));
    SelfFacts(s, e);
    StartPacket(s, e, src, p);
    var i := StartIndex(s, e, p);
    StartCalls(s, e, i, p);
  }

  lemma StartIndex(s: System, e: Endpoint, p: StartParams) returns (i: nat)
    requires StartTrue(s, e, p)
    ensures i < |s.server.sessions| && StartOf(s, i, e, p)
  {
    hide StartOf;
    i :| 0 <= i < |s.server.sessions| && StartOf(s, i, e, p);
  }

  lemma AnswerGood(s: System, e: Endpoint, now: u32, src: Endpoint, m: Msg)
    requires Inv(s) && e in s.clients && C.Active(s.clients[e]) && Packet(src, e, m) in s.net
    requires m.HostResp? || m.JoinResp? || m.PeerIntro? || m.PairRoute? || m.Start?
    ensures var r := C.Receive(s.clients[e], now, src, m); Good(s, e, r.0, r.1)
  {
    hide Inv, ClientInv, Good, Called, Verdict, OtherSeat, Home, HasHome;
    hide C.OnHostResp, C.OnJoinResp, C.OnPeerIntro, C.OnPairRoute, C.OnStart, C.Active;
    var c := s.clients[e];
    InvClient(s, e);
    match m {
      case HostResp(id) => HostRespGood(s, e, src, id);
      case JoinResp(slot, np) => JoinRespGood(s, e, src, slot, np);
      case PeerIntro(slot, pub, priv) =>
        IntroSeat(s, e, src, slot, pub, priv);
        PeerIntroGood(s, e, now, slot, pub, priv);
      case PairRoute(a, b, r) =>
        RouteVerdict(s, e, src, a, b, r);
        PairRouteGood(s, e, a, b, r);
      case Start(p) =>
        if 3 <= C.Order(c.stage) <= 5 {
          StartHeard(s, e, src, p);
        }
        StartGood(s, e, p);
    }
  }

  lemma PeerGood(s: System, e: Endpoint, now: u32, src: Endpoint, m: Msg)
    requires Inv(s) && e in s.clients && C.Active(s.clients[e]) && Packet(src, e, m) in s.net
    requires !(m.HostResp? || m.JoinResp? || m.PeerIntro? || m.PairRoute? || m.Start?)
    ensures var r := C.Receive(s.clients[e], now, src, m); Good(s, e, r.0, r.1)
  {
    var c := s.clients[e];
    hide Inv, ClientInv, PacketInv, Good, C.OnPunch, C.OnPunchAck, C.Active, C.RejectName;
    InvClient(s, e);
    match m {
      case Reject(reason) =>
        if c.stage != C.Joining && c.stage != C.Registering {
          NoChangeGood(s, e);
        } else {
          FailGood(s, e, "REJECTED:" + C.RejectName(reason));
        }
      case Punch(_, _, _) => PunchGood(s, e, Packet(src, e, m));
      case PunchAck(_, _, _) =>
        PacketIn(s, Packet(src, e, m));
        PunchAckGood(s, e, now, Packet(src, e, m));
      case _ => NoChangeGood(s, e);
    }
  }

  lemma ReceiveGood(s: System, e: Endpoint, now: u32, src: Endpoint, m: Msg)
    requires Inv(s) && e in s.clients && C.Active(s.clients[e]) && Packet(src, e, m) in s.net
    ensures var r := C.Receive(s.clients[e], now, src, m); Good(s, e, r.0, r.1)
  {
    hide *;
    if m.HostResp? || m.JoinResp? || m.PeerIntro? || m.PairRoute? || m.Start? {
      AnswerGood(s, e, now, src, m);
    } else {
      PeerGood(s, e, now, src, m);
    }
  }

  lemma StaysActive(c: C.Client, now: u32, src: Endpoint, m: Msg)
    requires C.Active(c)
    ensures C.Active(C.Receive(c, now, src, m).0) || C.Receive(c, now, src, m).0.stage == C.Failed
  {
    hide C.OnHostResp, C.OnJoinResp, C.OnPeerIntro, C.OnPunch, C.OnPunchAck, C.OnPairRoute, C.OnStart, C.RejectName;
    StaysOnAnswer(c, now, m);
    match m {
      case PunchAck(id, slot, nonce) => StaysOnAck(c, now, src, id, slot, nonce);
      case Start(p) => StaysOnStart(c, p);
      case PairRoute(a, b, r) => StaysOnRoute(c, a, b, r);
      case _ =>
    }
  }

  lemma StaysOnAnswer(c: C.Client, now: u32, m: Msg)
    ensures m.HostResp? ==> C.OnHostResp(c, m.sessionId).stage in {c.stage, C.WaitingPeers}
    ensures m.JoinResp? ==> C.OnJoinResp(c, m.slot, m.numPlayers).stage in {c.stage, C.WaitingPeers}
    ensures m.PeerIntro? ==> C.OnPeerIntro(c, now, m.slot, m.publicEp, m.privateEp).stage == c.stage
  {
    hide C.NextRng, Quad.With, Quad.At;
  }

  lemma StaysOnRoute(c: C.Client, a: u8, b: u8, r: u8)
    ensures C.OnPairRoute(c, a, b, r).stage == c.stage
  {
    hide Quad.With, Quad.At, C.Known.Mark;
  }

  lemma StaysOnAck(c: C.Client, now: u32, from: Endpoint, id: u16, slot: u8, nonce: u32)
    ensures C.OnPunchAck(c, now, from, id, slot, nonce).0.stage == c.stage
  {
    hide C.AckMatches, Quad.With, Quad.At;
  }

  lemma StaysOnStart(c: C.Client, p: StartParams)
    ensures C.OnStart(c, p).0.stage in {c.stage, C.Failed}
  {
  }

  lemma GoodKeeps(s: System, e: Endpoint, d: C.Client, out: seq<Out>)
    requires Inv(s) && e in s.clients && Good(s, e, d, out)
    ensures Inv(After(s, e, d, out))
  {
    hide Inv, ClientInv, Grows, ClientSaid;
    StepKeeps(s, e, d, out);
  }

  /** Two steps of one client are one step with both sends. */
  lemma AfterTwice(s: System, e: Endpoint, c: C.Client, out: seq<Out>, d: C.Client, more: seq<Out>)
    requires e in s.clients
    ensures After(After(s, e, c, out), e, d, more) == After(s, e, d, out + more)
  {
    assert Sent(e, out + more) == Sent(e, out) + Sent(e, more);
    assert s.clients[e := c][e := d] == s.clients[e := d];
  }

  predicate Delivered(s: System, e: Endpoint, inbox: seq<C.In>) {
    forall m :: m in inbox ==> Packet(m.from, e, m.msg) in s.net
  }

  lemma {:induction false} DrainKeeps(s: System, e: Endpoint, now: u32, inbox: seq<C.In>)
    requires Inv(s) && e in s.clients && (C.Active(s.clients[e]) || s.clients[e].stage == C.Failed)
      && Delivered(s, e, inbox)
    ensures var r := C.Drain(s.clients[e], now, inbox);
      Inv(After(s, e, r.0, r.1)) && (C.Active(r.0) || r.0.stage == C.Failed)
    decreases |inbox|
  {
    var c := s.clients[e];
    hide Inv, C.Receive, Good;
    if inbox == [] || c.stage == C.Failed {
      Unchanged(s, e);
    } else {
      var (d, out) := C.Receive(c, now, inbox[0].from, inbox[0].msg);
      assert inbox[0] in inbox;
      ReceiveGood(s, e, now, inbox[0].from, inbox[0].msg);
      StaysActive(c, now, inbox[0].from, inbox[0].msg);
      GoodKeeps(s, e, d, out);
      var t := After(s, e, d, out);
      DrainKeeps(t, e, now, inbox[1..]);
      var (f, more) := C.Drain(d, now, inbox[1..]);
      AfterTwice(s, e, d, out, f, more);
    }
  }

  lemma Unchanged(s: System, e: Endpoint)
    requires e in s.clients
    ensures After(s, e, s.clients[e], []) == s
  {
    assert Sent(e, []) == {};
    assert s.clients[e := s.clients[e]] == s.clients;
  }

  // ------------------------------------------------------------- the duties

  lemma HostReqSaid(t: System, e: Endpoint, o: Out, c: C.Client)
    requires e in t.clients && c.isHost && t.clients[e].isHost && t.clients[e].numPlayers == c.numPlayers
      && o == C.HostReqOf(c)
    ensures ClientSaid(t, Packet(e, o.to, o.msg))
  {
  }

  lemma JoinReqSaid(t: System, e: Endpoint, o: Out, c: C.Client)
    requires e in t.clients && !t.clients[e].isHost && t.clients[e].sessionId == c.sessionId && o == C.JoinReqOf(c)
    ensures ClientSaid(t, Packet(e, o.to, o.msg))
  {
  }

  /** Only timers and counters move. */
  predicate Ticks(c: C.Client, d: C.Client) {
    d == c.(lastSend := d.lastSend, retries := d.retries, lastKeepalive := d.lastKeepalive,
            lastStart := d.lastStart, hostStartSent := d.hostStartSent, forcedRelay := d.forcedRelay)
  }

  lemma TicksFrame(c: C.Client, d: C.Client)
    requires Ticks(c, d)
    ensures SameSeat(c, d) && SamePeers(c, d) && d.known == c.known && d.startSeen == c.startSeen
      && C.Params(d) == C.Params(c)
    ensures d.stage == c.stage && d.result == c.result && d.peer == c.peer
  {
  }

  lemma TicksGood(s: System, e: Endpoint, d: C.Client, out: seq<Out>)
    requires e in s.clients && ClientInv(s, e) && Ticks(s.clients[e], d) && NoPunch(out)
    requires forall o :: o in out ==> ClientSaid(After(s, e, d, out), Packet(e, o.to, o.msg))
    ensures Good(s, e, d, out)
  {
    hide ClientInv, Grows, ClientSaid, Sent, NoPunch, Ticks, SameSeat, SamePeers, C.Params;
    TicksFrame(s.clients[e], d);
    FrameGood(s, e, d, out);
  }

  lemma TicksFailGood(s: System, e: Endpoint, c: C.Client, text: string)
    requires e in s.clients && ClientInv(s, e) && Ticks(s.clients[e], c)
    ensures Good(s, e, C.Fail(c, text), [])
  {
    hide ClientInv, Grows;
    FrameGood(s, e, C.Fail(c, text), []);
  }

  lemma ShapeOf(s: System, e: Endpoint)
    requires e in s.clients && ClientInv(s, e)
    ensures var c := s.clients[e];
      && (c.stage == C.Registering ==> c.isHost) && (c.stage == C.Joining ==> !c.isHost)
      && c.server == s.ep && (c.isHost && c.sessionId != 0 ==> Seated(s.server.sessions, c, e))
  {
    hide ProbesOk, RoutesOk, KnownOk, StartedOk, Seated, Home, HasHome;
  }

  /** A request repeated, or given up after RETRY_MAX tries. */
  lemma RepeatGood(s: System, e: Endpoint, d: C.Client, o: Out, text: string)
    requires e in s.clients && ClientInv(s, e) && Ticks(s.clients[e], d) && (o.msg.HostReq? || o.msg.JoinReq?)
    requires ClientSaid(After(s, e, d, [o]), Packet(e, o.to, o.msg))
    ensures Good(s, e, C.Fail(d, text), []) && Good(s, e, d, [o])
  {
    hide ClientInv, Good, ClientSaid, Ticks, After;
    TicksFailGood(s, e, d, text);
    TicksGood(s, e, d, [o]);
  }

  lemma RetryCases(c: C.Client, now: u32)
    requires c.stage == C.Registering || c.stage == C.Joining
    ensures var (d, out) := C.StageDuty(c, now);
      var e := c.(lastSend := now, retries := (c.retries + 1) % 0x100);
      || (d == c && out == [])
      || (d == C.Fail(e, C.StageName(c.stage)) && out == [])
      || (d == e && out == [if c.stage == C.Registering then C.HostReqOf(e) else C.JoinReqOf(e)])
  {
    hide C.HostReqOf, C.JoinReqOf, C.StageName;
  }

  lemma RetryGood(s: System, e: Endpoint, now: u32)
    requires e in s.clients && ClientInv(s, e)
    requires s.clients[e].stage == C.Registering || s.clients[e].stage == C.Joining
    ensures var r := C.StageDuty(s.clients[e], now); Good(s, e, r.0, r.1)
  {
    hide ClientInv, Good, ClientSaid, Seated, C.StageName, C.StageDuty, C.Fail, After;
    var c := s.clients[e];
    ShapeOf(s, e);
    RetryCases(c, now);
    NoChangeGood(s, e);
    var d := c.(lastSend := now, retries := (c.retries + 1) % 0x100);
    if c.stage == C.Registering {
      RequestSaid(s, e, d, C.HostReqOf(d));
      RepeatGood(s, e, d, C.HostReqOf(d), C.StageName(c.stage));
    } else {
      RequestSaid(s, e, d, C.JoinReqOf(d));
      RepeatGood(s, e, d, C.JoinReqOf(d), C.StageName(c.stage));
    }
  }

  lemma RequestSaid(s: System, e: Endpoint, d: C.Client, o: Out)
    requires e in s.clients && d.isHost == s.clients[e].isHost
    requires o == if d.isHost then C.HostReqOf(d) else C.JoinReqOf(d)
    ensures ClientSaid(After(s, e, d, [o]), Packet(e, o.to, o.msg))
  {
    hide Sent;
  }

  // ---------------------------------------------------- entering PUNCHING

  /** Only probe clocks move. */
  predicate Aimed(c: C.Client, d: C.Client) {
    d == c.(peer := d.peer) && SamePeers(c, d)
  }

  lemma AimOne(c: C.Client, now: u32, i: Slot)
    ensures Aimed(c, c.(peer := c.peer.With(i, C.Aim(c.peer.At(i), now))))
  {
  }

  lemma {:induction false} AimAll(c: C.Client, now: u32, i: nat)
    ensures Aimed(c, C.AimFrom(c, now, i))
    decreases 4 - i
  {
    if i < 4 && i < c.numPlayers {
      if i == c.localSlot {
        AimAll(c, now, i + 1);
      } else {
        var d := c.(peer := c.peer.With(i, C.Aim(c.peer.At(i), now)));
        AimOne(c, now, i);
        AimAll(d, now, i + 1);
      }
    }
  }

  lemma SamePresent(c: C.Client, d: C.Client)
    requires SamePeers(c, d) && d.numPlayers == c.numPlayers
    ensures C.AllPeersPresent(c) == C.AllPeersPresent(d)
  {
    assert forall j: Slot :: SameMarks(c.peer.At(j), d.peer.At(j));
    hide Quad.At;
  }

  lemma EnterGood(s: System, e: Endpoint, now: u32)
    requires e in s.clients && ClientInv(s, e) && s.clients[e].stage == C.WaitingPeers
      && C.AllPeersPresent(s.clients[e])
    ensures Good(s, e, C.EnterPunching(s.clients[e], now), [])
  {
    var c := s.clients[e];
    var d := C.EnterPunching(c, now);
    AimAll(c.(stage := C.Punching), now, 0);
    hide ClientInv, Good, C.AimFrom, SameMarks, C.AllPeersPresent;
    SamePresent(c, d);
    FrameGood(s, e, d, []);
  }

  lemma WaitGood(s: System, e: Endpoint, now: u32)
    requires e in s.clients && ClientInv(s, e) && s.clients[e].stage == C.WaitingPeers
    ensures var r := C.StageDuty(s.clients[e], now); Good(s, e, r.0, r.1)
  {
    var c := s.clients[e];
    var (d, out) := C.StageDuty(c, now);
    hide ClientInv, Good, ClientSaid, C.EnterPunching, C.AllPeersPresent;
    if C.AllPeersPresent(c) {
      EnterGood(s, e, now);
    } else if Elapsed(now, c.lastSend) < C.RETRY_MS {
      NoChangeGood(s, e);
    } else {
      if d.isHost {
        HostReqSaid(After(s, e, d, out), e, C.HostReqOf(d), d);
      } else {
        JoinReqSaid(After(s, e, d, out), e, C.JoinReqOf(d), d);
      }
      TicksGood(s, e, d, out);
    }
  }

  // ---------------------------------------------------------------- probing

  /** Probing i, whose route is open, with i's own nonce. */
  predicate Probes(c: C.Client, d: C.Client, i: Slot, out: seq<Out>) {
    && Aimed(c, d) && c.stage == C.Punching && i != c.localSlot && c.peer.At(i).present && c.peer.At(i).route < 0
    && forall o :: o in out ==> o.msg.Punch? && o.msg.nonce == Word(c.peer.At(i).nonce)
  }

  lemma ProbeRoutes(s: System, e: Endpoint, d: C.Client, i: Slot, out: seq<Out>)
    requires e in s.clients && NoncesOk(s.clients[e]) && RoutesOk(s, e) && Probes(s.clients[e], d, i, out)
    ensures RoutesOk(After(s, e, d, out), e)
  {
    var c := s.clients[e];
    assert forall j: Slot :: SameMarks(c.peer.At(j), d.peer.At(j));
    hide Home, HasHome, Quad.At, R.Grid.At, C.AllPeersPresent, Seated, Drawn;
    SameSeated(s.server.sessions, c, d, e);
    assert forall j: Slot :: j != i ==> c.peer.At(j).nonce != c.peer.At(i).nonce;
    forall j: Slot | j != i ensures Word(c.peer.At(j).nonce) != Word(c.peer.At(i).nonce) {
      WordsDiffer(c.peer.At(j).nonce, c.peer.At(i).nonce);
    }
    hide NoncesOk, Word;
    forall j: Slot | Quiet(s.net, c, e, j) && j != i ensures Quiet(After(s, e, d, out).net, d, e, j) {
    }
  }

  lemma ProbeProbes(s: System, e: Endpoint, d: C.Client, i: Slot, out: seq<Out>)
    requires e in s.clients && ProbesOk(s, e) && Probes(s.clients[e], d, i, out)
    ensures ProbesOk(After(s, e, d, out), e)
  {
    var c := s.clients[e];
    assert forall j: Slot :: SameMarks(c.peer.At(j), d.peer.At(j));
    assert SameNonce(c, d);
    SamePresent(c, d);
    hide Home, HasHome, Quad.At, C.AllPeersPresent, Seated, OtherSeat;
    NoncesStay(c, d);
    hide NoncesOk;
    SameSeated(s.server.sessions, c, d, e);
  }

  lemma AimedFrame(c: C.Client, d: C.Client)
    requires Aimed(c, d)
    ensures SameSeat(c, d) && SamePeers(c, d) && d.known == c.known && d.startSeen == c.startSeen
      && C.Params(d) == C.Params(c)
    ensures d.stage == c.stage && d.result == c.result
  {
  }

  lemma ProbeSaid(t: System, e: Endpoint, o: Out)
    requires e in t.clients && o.msg.Punch?
    ensures ClientSaid(t, Packet(e, o.to, o.msg))
  {
  }

  lemma ProbeGood(s: System, e: Endpoint, d: C.Client, i: Slot, out: seq<Out>)
    requires e in s.clients && ClientInv(s, e) && Probes(s.clients[e], d, i, out)
    ensures Good(s, e, d, out)
  {
    var c := s.clients[e];
    hide Placed, RoutesOk, KnownOk, StartedOk, Grows, SameSeat, SamePeers, NoncesOk, ClientSaid, Sent;
    AimedFrame(c, d);
    ProbeRoutes(s, e, d, i, out);
    ProbeProbes(s, e, d, i, out);
    PlacedFrame(s, e, d, out);
    KnownFrame(s, e, d, out);
    StartedFrame(s, e, d, out);
    GrowsFrame(c, d);
    hide ProbesOk;
    forall o | o in out ensures ClientSaid(After(s, e, d, out), Packet(e, o.to, o.msg)) {
      ProbeSaid(After(s, e, d, out), e, o);
    }
  }

  /** The peer's report is due, first or again. */
  predicate Reports(c: C.Client, now: u32, i: Slot) {
    var p := c.peer.At(i);
    && i != c.localSlot && p.route < 0
    && if p.reported then Elapsed(now, p.lastReport) >= C.RETRY_MS
       else c.forcedRelay || Elapsed(now, p.punchBegin) > C.PUNCH_BUDGET_MS
  }

  lemma ReportCase(c: C.Client, now: u32, i: Slot)
    requires Reports(c, now, i)
    ensures var (d, out) := C.PunchPeer(c, now, i);
      Marks(c, d, i) && exists ok: u8 :: out == [C.ReportOf(c, i, ok)] && (ok != 0 ==> d.peer.At(i).acked)
  {
    var p := c.peer.At(i);
    var ok: u8 := if p.reported && p.acked then 1 else 0;
    hide C.ReportOf;
    assert C.PunchPeer(c, now, i) == (c.(peer := c.peer.With(i, p.(reported := true, lastReport := now))),
      [C.ReportOf(c, i, ok)]);
    hide C.PunchPeer, Quad.At;
  }

  lemma ProbeCase(c: C.Client, now: u32, i: Slot)
    requires c.stage == C.Punching && c.peer.At(i).present && !Reports(c, now, i)
    ensures var (d, out) := C.PunchPeer(c, now, i); (d == c && out == []) || Probes(c, d, i, out)
  {
    hide C.ReportOf, C.ProbeTarget;
    var (d, out) := C.PunchPeer(c, now, i);
    assert d == c || (exists t, alt :: d == c.(peer := c.peer.With(i, c.peer.At(i).(lastPunch := t, punchAlt := alt))));
    if d != c {
      var t, alt :| d == c.(peer := c.peer.With(i, c.peer.At(i).(lastPunch := t, punchAlt := alt)));
      hide C.PunchPeer;
      ReclockOne(c, i, t, alt);
    }
  }

  lemma ReclockOne(c: C.Client, i: Slot, t: u32, alt: bool)
    ensures Aimed(c, c.(peer := c.peer.With(i, c.peer.At(i).(lastPunch := t, punchAlt := alt))))
  {
  }

  lemma PunchPeerGood(s: System, e: Endpoint, now: u32, i: Slot)
    requires e in s.clients && ClientInv(s, e) && s.clients[e].stage == C.Punching && i < s.clients[e].numPlayers
    ensures var r := C.PunchPeer(s.clients[e], now, i); Good(s, e, r.0, r.1)
  {
    var c := s.clients[e];
    var (d, out) := C.PunchPeer(c, now, i);
    PunchingPresent(s, e, i);
    SeatedStage(s, e);
    hide ClientInv, Good, C.PunchPeer, Probes, Marks, Seated, ClientSaid;
    if Reports(c, now, i) {
      ReportCase(c, now, i);
      var ok: u8 :| out == [C.ReportOf(c, i, ok)] && (ok != 0 ==> d.peer.At(i).acked);
      MarkedReport(s, e, d, i, ok);
      MarkGood(s, e, i, d, out);
    } else {
      ProbeCase(c, now, i);
      if d == c && out == [] {
        NoChangeGood(s, e);
      } else {
        ProbeGood(s, e, d, i, out);
      }
    }
  }

  lemma MarkedReport(s: System, e: Endpoint, d: C.Client, i: Slot, ok: u8)
    requires e in s.clients && Marks(s.clients[e], d, i) && (ok != 0 ==> d.peer.At(i).acked)
    ensures var o := C.ReportOf(s.clients[e], i, ok);
      ClientSaid(After(s, e, d, [o]), Packet(e, o.to, o.msg)) && NoPunch([o])
  {
    var c := s.clients[e];
    hide ClientSaid, Quad.At, Sent;
    ReportSaid(After(s, e, d, [C.ReportOf(c, i, ok)]), e, i, ok, c);
  }

  lemma PunchingPresent(s: System, e: Endpoint, i: Slot)
    requires e in s.clients && ClientInv(s, e) && s.clients[e].stage == C.Punching && i < s.clients[e].numPlayers
    ensures s.clients[e].peer.At(i).present
  {
    hide Placed, RoutesOk, KnownOk, StartedOk, NoncesOk, Seated, OtherSeat, Home;
  }

  lemma PunchStays(c: C.Client, now: u32, i: Slot)
    ensures var d := C.PunchPeer(c, now, i).0; d.stage == c.stage && d.numPlayers == c.numPlayers
  {
    hide Quad.With, Quad.At, C.ProbeTarget;
  }

  lemma PunchPeerKeeps(s: System, e: Endpoint, now: u32, i: Slot)
    requires Inv(s) && e in s.clients && s.clients[e].stage == C.Punching && i < s.clients[e].numPlayers
    ensures var r := C.PunchPeer(s.clients[e], now, i); Inv(After(s, e, r.0, r.1)) && r.0.stage == C.Punching
  {
    hide Inv, ClientInv, C.PunchPeer, Good;
    InvClient(s, e);
    PunchPeerGood(s, e, now, i);
    PunchStays(s.clients[e], now, i);
    var r := C.PunchPeer(s.clients[e], now, i);
    GoodKeeps(s, e, r.0, r.1);
  }

  lemma PunchFromStep(c: C.Client, now: u32, i: nat)
    ensures var r := if i >= 4 || i >= c.numPlayers then (c, []) else C.PunchPeer(c, now, i);
      C.PunchFrom(c, now, i) ==
        if i >= 4 || i >= c.numPlayers then (c, [])
        else var q := C.PunchFrom(r.0, now, i + 1); (q.0, r.1 + q.1)
  {
    hide C.PunchPeer;
  }

  lemma {:induction false} PunchFromKeeps(s: System, e: Endpoint, now: u32, i: nat)
    requires Inv(s) && e in s.clients && s.clients[e].stage == C.Punching
    ensures var r := C.PunchFrom(s.clients[e], now, i); Inv(After(s, e, r.0, r.1)) && r.0.stage == C.Punching
    decreases 4 - i
  {
    hide *;
    var c := s.clients[e];
    PunchFromStep(c, now, i);
    if i >= 4 || i >= c.numPlayers {
      Unchanged(s, e);
    } else {
      var r := C.PunchPeer(c, now, i);
      PunchPeerKeeps(s, e, now, i);
      var t := After(s, e, r.0, r.1);
      AfterIs(s, e, r.0, r.1);
      PunchFromKeeps(t, e, now, i + 1);
      var q := C.PunchFrom(r.0, now, i + 1);
      AfterTwice(s, e, r.0, r.1, q.0, q.1);
    }
  }

  lemma AfterIs(s: System, e: Endpoint, d: C.Client, out: seq<Out>)
    requires e in s.clients
    ensures e in After(s, e, d, out).clients && After(s, e, d, out).clients[e] == d
  {
  }

  // ------------------------------------------------------ START and the end

  lemma StartSaid(s: System, e: Endpoint, d: C.Client)
    requires e in s.clients && ClientInv(s, e) && s.clients[e].isHost && s.clients[e].sessionId != 0
    requires C.AllPairsDecided(s.clients[e]) && Ticks(s.clients[e], d)
    ensures var out := [Out(d.server, Start(C.Params(s.clients[e])))];
      ClientSaid(After(s, e, d, out), Packet(e, d.server, Start(C.Params(s.clients[e]))))
  {
    hide ProbesOk, RoutesOk, StartedOk, Home, HasHome, Sent, R.Grid.At, C.Known.At;
  }

  lemma HostDutyGood(s: System, e: Endpoint, now: u32)
    requires e in s.clients && ClientInv(s, e)
    ensures var r := C.HostDuty(s.clients[e], now); Good(s, e, r.0, r.1)
  {
    var c := s.clients[e];
    var (d, out) := C.HostDuty(c, now);
    hide ClientInv, Good, ClientSaid, C.AllPairsDecided, C.Params;
    if out == [] {
      NoChangeGood(s, e);
    } else {
      StartSaid(s, e, d);
      TicksGood(s, e, d, out);
    }
  }

  lemma ReadyGood(s: System, e: Endpoint)
    requires e in s.clients && ClientInv(s, e) && 4 <= C.Order(s.clients[e].stage) <= 5
    requires s.clients[e].startSeen && C.LocalRoutesDecided(s.clients[e])
    ensures Good(s, e, C.Finish(s.clients[e]), [])
  {
    var c := s.clients[e];
    var d := C.Finish(c);
    FinishFrame(c);
    hide Placed, ProbesOk, RoutesOk, KnownOk, StartedOk, Grows, SameSeat, SamePeers, C.Finish, C.LocalRoutesDecided,
      C.Params, C.FillResult;
    PlacedFrame(s, e, d, []);
    ProbesFrame(s, e, d, []);
    RoutesFrame(s, e, d, []);
    KnownFrame(s, e, d, []);
    GrowsFrame(c, d);
    ReadyStarted(s, e, d);
  }

  lemma FinishFrame(c: C.Client)
    requires 4 <= C.Order(c.stage) <= 5 && c.startSeen && C.LocalRoutesDecided(c)
    ensures var d := C.Finish(c);
      SameSeat(c, d) && SamePeers(c, d) && C.Params(d) == C.Params(c)
        && d == c.(result := Some(C.FillResult(c)), stage := C.Ready)
  {
    hide C.LocalRoutesDecided, C.FillResult, C.AllPeersPresent;
  }

  lemma ReadyStarted(s: System, e: Endpoint, d: C.Client)
    requires e in s.clients && StartedOk(s, e) && s.clients[e].startSeen && C.LocalRoutesDecided(s.clients[e])
    requires d == s.clients[e].(result := Some(C.FillResult(s.clients[e])), stage := C.Ready)
    ensures StartedOk(After(s, e, d, []), e)
  {
    hide Home, HasHome, AllDecided, Sent, Quad.At;
  }

  lemma FinishGood(s: System, e: Endpoint)
    requires e in s.clients && ClientInv(s, e) && s.clients[e].stage != C.Ready
    ensures Good(s, e, C.Finish(s.clients[e]), [])
  {
    var c := s.clients[e];
    var d := C.Finish(c);
    hide ClientInv, Good, C.LocalRoutesDecided, SameMarks;
    if d == c {
      NoChangeGood(s, e);
    } else if c.startSeen {
      ReadyGood(s, e);
    } else {
      FrameGood(s, e, d, []);
    }
  }

  lemma KeepaliveTrue(t: System, e: Endpoint, o: Out)
    requires e in t.clients && o.msg.Keepalive?
    ensures ClientSaid(t, Packet(e, o.to, o.msg))
  {
  }

  lemma KeepDutyGood(s: System, e: Endpoint, now: u32)
    requires e in s.clients && ClientInv(s, e)
    ensures var r := C.KeepDuty(s.clients[e], now); Good(s, e, r.0, r.1)
  {
    var c := s.clients[e];
    var (d, out) := C.KeepDuty(c, now);
    hide ClientInv, Good, ClientSaid;
    if d == c && out == [] {
      NoChangeGood(s, e);
    } else {
      if out != [] {
        KeepaliveTrue(After(s, e, d, out), e, out[0]);
      }
      TicksGood(s, e, d, out);
    }
  }

  // -------------------------------------------------------------- composing

  /** From s, client e may become r.0 while sending r.1. */
  predicate Fine(s: System, e: Endpoint, r: (C.Client, seq<Out>)) {
    e in s.clients && Inv(After(s, e, r.0, r.1))
  }

  lemma Then(s: System, e: Endpoint, a: (C.Client, seq<Out>), b: (C.Client, seq<Out>))
    requires e in s.clients && Fine(After(s, e, a.0, a.1), e, b)
    ensures Fine(s, e, (b.0, a.1 + b.1))
  {
    hide Inv;
    AfterTwice(s, e, a.0, a.1, b.0, b.1);
  }

  lemma StageDutyFine(s: System, e: Endpoint, now: u32)
    requires Inv(s) && e in s.clients && C.Active(s.clients[e])
    ensures Fine(s, e, C.StageDuty(s.clients[e], now))
    ensures C.StageDuty(s.clients[e], now).0.stage != C.Ready
  {
    hide Inv, ClientInv, Good, C.AimFrom, C.PunchFrom, C.HostReqOf, C.JoinReqOf, C.StageName;
    var c := s.clients[e];
    InvClient(s, e);
    if c.stage == C.Punching {
      PunchFromKeeps(s, e, now, 0);
    } else {
      var r := C.StageDuty(c, now);
      if c.stage == C.AwaitingStart {
        NoChangeGood(s, e);
      } else if c.stage == C.WaitingPeers {
        WaitGood(s, e, now);
        AimAll(c.(stage := C.Punching), now, 0);
      } else {
        RetryGood(s, e, now);
      }
      GoodKeeps(s, e, r.0, r.1);
    }
  }

  lemma HostDutyFine(s: System, e: Endpoint, now: u32)
    requires Inv(s) && e in s.clients
    ensures Fine(s, e, C.HostDuty(s.clients[e], now)) && C.HostDuty(s.clients[e], now).0.stage == s.clients[e].stage
  {
    hide Inv, ClientInv, Good, C.AllPairsDecided;
    InvClient(s, e);
    HostDutyGood(s, e, now);
    var r := C.HostDuty(s.clients[e], now);
    GoodKeeps(s, e, r.0, r.1);
  }

  lemma FinishFine(s: System, e: Endpoint)
    requires Inv(s) && e in s.clients && s.clients[e].stage != C.Ready
    ensures Fine(s, e, (C.Finish(s.clients[e]), []))
  {
    hide Inv, ClientInv, Good, C.Finish;
    InvClient(s, e);
    FinishGood(s, e);
    GoodKeeps(s, e, C.Finish(s.clients[e]), []);
  }

  lemma KeepDutyFine(s: System, e: Endpoint, now: u32)
    requires Inv(s) && e in s.clients
    ensures Fine(s, e, C.KeepDuty(s.clients[e], now))
  {
    hide Inv, ClientInv, Good, C.KeepDuty;
    InvClient(s, e);
    KeepDutyGood(s, e, now);
    var r := C.KeepDuty(s.clients[e], now);
    GoodKeeps(s, e, r.0, r.1);
  }

  lemma FailFine(s: System, e: Endpoint, text: string)
    requires Inv(s) && e in s.clients
    ensures Fine(s, e, (C.Fail(s.clients[e], text), []))
  {
    hide Inv, ClientInv, Good, C.Fail;
    InvClient(s, e);
    FailGood(s, e, text);
    GoodKeeps(s, e, C.Fail(s.clients[e], text), []);
  }

  lemma FineAfter(s: System, e: Endpoint, a: (C.Client, seq<Out>))
    requires Fine(s, e, a)
    ensures var t := After(s, e, a.0, a.1); Inv(t) && e in t.clients && t.clients[e] == a.0
  {
    hide Inv;
  }

  /** The duties after the stage's own: START, completion, keepalive. */
  lemma ClosingFine(s: System, e: Endpoint, now: u32)
    requires Inv(s) && e in s.clients && s.clients[e].stage != C.Ready
    ensures var (d, out4) := C.HostDuty(s.clients[e], now);
      var (f, out6) := C.KeepDuty(C.Finish(d), now);
      Fine(s, e, (f, out4 + out6))
  {
    hide *;
    var a := C.HostDuty(s.clients[e], now);
    HostDutyFine(s, e, now);
    FineAfter(s, e, a);
    var t := After(s, e, a.0, a.1);
    var b := (C.Finish(a.0), []);
    FinishFine(t, e);
    FineAfter(t, e, b);
    var u := After(t, e, b.0, b.1);
    var k := C.KeepDuty(b.0, now);
    KeepDutyFine(u, e, now);
    Then(t, e, b, k);
    assert b.1 + k.1 == k.1;
    Then(s, e, a, k);
  }

  lemma DutiesFine(s: System, e: Endpoint, now: u32)
    requires Inv(s) && e in s.clients && C.Active(s.clients[e])
    ensures Fine(s, e, C.Duties(s.clients[e], now))
  {
    hide Inv, C.StageDuty, C.HostDuty, C.Finish, C.KeepDuty, Fine, C.StageName, After;
    var c := s.clients[e];
    if Elapsed(now, c.beginMs) > C.TIMEOUT_MS {
      FailFine(s, e, C.StageName(c.stage));
    } else {
      var a := C.StageDuty(c, now);
      StageDutyFine(s, e, now);
      if a.0.stage != C.Failed {
        FineAfter(s, e, a);
        ClosingFine(After(s, e, a.0, a.1), e, now);
        var h := C.HostDuty(a.0, now);
        var k := C.KeepDuty(C.Finish(h.0), now);
        Then(s, e, a, (k.0, h.1 + k.1));
        assert a.1 + h.1 + k.1 == a.1 + (h.1 + k.1);
      }
    }
  }

  lemma DrainFine(s: System, e: Endpoint, now: u32, inbox: seq<C.In>)
    requires Inv(s) && e in s.clients && C.Active(s.clients[e]) && Delivered(s, e, inbox)
    ensures var r := C.Drain(s.clients[e], now, inbox);
      Fine(s, e, r) && (C.Active(r.0) || r.0.stage == C.Failed)
  {
    hide Inv, C.Drain;
    DrainKeeps(s, e, now, inbox);
  }

  /** A whole poll keeps the invariant. */
  lemma PollKeeps(s: System, e: Endpoint, now: u32, inbox: seq<C.In>)
    requires Inv(s) && e in s.clients && Delivered(s, e, inbox)
    ensures var r := C.Poll(s.clients[e], now, inbox); Inv(After(s, e, r.0, r.1))
  {
    hide Inv, C.Drain, C.Duties, C.Active, After, Delivered;
    var c := s.clients[e];
    if !C.Active(c) {
      Unchanged(s, e);
    } else {
      var taken := if |inbox| <= C.DRAIN_MAX then inbox else inbox[..C.DRAIN_MAX];
      DeliveredPrefix(s, e, inbox);
      var a := C.Drain(c, now, taken);
      DrainFine(s, e, now, taken);
      if a.0.stage != C.Failed {
        FineAfter(s, e, a);
        DutiesFine(After(s, e, a.0, a.1), e, now);
        Then(s, e, a, C.Duties(a.0, now));
      }
    }
  }

  lemma DeliveredPrefix(s: System, e: Endpoint, inbox: seq<C.In>)
    requires Delivered(s, e, inbox)
    ensures |inbox| > C.DRAIN_MAX ==> Delivered(s, e, inbox[..C.DRAIN_MAX])
  {
  }
}
