// What every handler and every tick keeps of the session table, and what every
// emitted message says about the session it comes from.

module RendezvousTable {
  import opened Basics
  import opened LobbyTypes
  import opened Scan
  import opened Rendezvous

  // ------------------------------------------------------------- invariants

  predicate CellsOk(s: Session) {
    forall a: Slot, b: Slot ::
      && -1 <= s.pairs.At(a, b).punch <= 1
      && (s.pairs.At(a, b).punch >= 0 ==> a != b && s.peers.At(a).used && s.peers.At(b).used)
      && (s.pairs.At(a, b).routeSent ==>
            && s.pairs.At(a, b).route <= ROUTE_RELAY
            && s.pairs.At(b, a).routeSent && s.pairs.At(b, a).route == s.pairs.At(a, b).route
            && s.pairs.At(a, b).punch >= 0 && s.pairs.At(b, a).punch >= 0)
  }

  predicate PeersOk(s: Session) {
    && (forall k: Slot :: s.peers.At(k).used <==> k < s.joined)
    && (forall k: Slot :: !s.peers.At(k).used ==> s.peers.At(k) == NO_PEER)
    && (forall k: Slot, l: Slot :: s.peers.At(k).used && s.peers.At(l).used && k != l ==>
          s.peers.At(k).publicEp != s.peers.At(l).publicEp)
  }

  /** A live session's own invariant; a free one is exactly the cleared slot. */
  predicate SessionInv(s: Session) {
    if s.phase == Free then s == CLEARED
    else
      && s.id != 0 && 2 <= s.numPlayers <= 4 && 1 <= s.joined <= s.numPlayers
      && PeersOk(s) && CellsOk(s)
      && (s.phase == Lobby <==> s.start.None?)
      && (s.phase == Lobby ==> forall k: Slot :: !s.peers.At(k).startAcked)
      && (s.phase == Starting ==> !AllAcked(s.peers))
      && (s.phase == Running ==> AllAcked(s.peers))
  }

  predicate IdsDistinct(ss: seq<Session>) {
    forall i, j :: 0 <= i < j < |ss| && ss[i].phase != Free && ss[j].phase != Free ==> ss[i].id != ss[j].id
  }

  predicate OneLobbyPerHost(ss: seq<Session>) {
    forall i, j :: 0 <= i < j < |ss| && ss[i].phase == Lobby && ss[j].phase == Lobby ==>
      ss[i].peers.At(0).publicEp != ss[j].peers.At(0).publicEp
  }

  predicate TableInv(ss: seq<Session>) {
    && (forall i :: 0 <= i < |ss| ==> SessionInv(ss[i]))
    && IdsDistinct(ss)
    && OneLobbyPerHost(ss)
  }

  // ------------------------------------------------------------- transitions

  function Rank(p: Phase): nat {
    match p
    case Free => 0 case Lobby => 1 case Starting => 2 case Running => 3
  }

  /** How a live session may change while it lives: identity and members stay,
      the phase only moves forward, decided routes never change. */
  predicate Evolves(s: Session, t: Session) {
    && t.phase != Free && Rank(s.phase) <= Rank(t.phase)
    && t.id == s.id && t.numPlayers == s.numPlayers && t.netVersion == s.netVersion
    && s.joined <= t.joined
    && (forall k: Slot :: s.peers.At(k).used ==>
          t.peers.At(k).used && t.peers.At(k).publicEp == s.peers.At(k).publicEp
          && t.peers.At(k).privateEp == s.peers.At(k).privateEp)
    && (forall a: Slot, b: Slot :: s.pairs.At(a, b).routeSent ==>
          t.pairs.At(a, b).routeSent && t.pairs.At(a, b).route == s.pairs.At(a, b).route)
    && (forall a: Slot, b: Slot :: s.pairs.At(a, b).punch >= 0 ==> t.pairs.At(a, b).punch >= 0)
  }

  /** Sessions that are live keep living and evolve; free slots may be opened. */
  predicate Advances(ss: seq<Session>, tt: seq<Session>) {
    && |tt| == |ss|
    && forall i :: 0 <= i < |ss| && ss[i].phase != Free ==> Evolves(ss[i], tt[i])
  }

  lemma EvolvesRefl(s: Session)
    requires s.phase != Free
    ensures Evolves(s, s)
  {
  }

  lemma EvolvesTrans(s: Session, t: Session, u: Session)
    requires Evolves(s, t) && Evolves(t, u)
    ensures Evolves(s, u)
  {
  }

  lemma AdvancesRefl(ss: seq<Session>)
    ensures Advances(ss, ss)
  {
  }

  // ---------------------------------------------------------- true messages

  predicate Member(s: Session, e: Endpoint) {
    exists k: Slot :: Owns(s.peers.At(k), e)
  }

  /** What a server message asserts about the session it was sent for. */
  predicate Truthful(s: Session, o: Out) {
    match o.msg
    case HostResp(id) => s.id == id && Owns(s.peers.At(0), o.to)
    case JoinResp(slot, np) => slot < 4 && Owns(s.peers.At(slot), o.to) && np == s.numPlayers
    case PeerIntro(slot, pub, priv) =>
      slot < 4 && Owns(s.peers.At(slot), pub) && s.peers.At(slot).privateEp == priv
      && Member(s, o.to) && !Owns(s.peers.At(slot), o.to)
    case PairRoute(a, b, r) =>
      a < b < 4 && Member(s, o.to) && s.pairs.At(a, b).routeSent && s.pairs.At(a, b).route == r
    case Start(p) => Member(s, o.to) && s.start.Some?
    case Relay(id, f, t, _) => s.id == id && t < 4 && Owns(s.peers.At(t), o.to)
    case _ => false
  }

  /** A refusal says nothing about any session. */
  predicate Vouched(ss: seq<Session>, o: Out) {
    o.msg.Reject? || exists i :: 0 <= i < |ss| && ss[i].phase != Free && Truthful(ss[i], o)
  }

  lemma TruthfulPersists(s: Session, t: Session, o: Out)
    requires Evolves(s, t) && SessionInv(s) && SessionInv(t) && s.phase != Free
    requires Truthful(s, o)
    ensures Truthful(t, o)
  {
    if Member(s, o.to) {
      var k: Slot :| Owns(s.peers.At(k), o.to);
      assert Owns(t.peers.At(k), o.to);
    }
  }

  lemma VouchedPersists(ss: seq<Session>, tt: seq<Session>, o: Out)
    requires TableInv(ss) && TableInv(tt) && Advances(ss, tt) && Vouched(ss, o)
    ensures Vouched(tt, o)
  {
    if !o.msg.Reject? {
      var i :| 0 <= i < |ss| && ss[i].phase != Free && Truthful(ss[i], o);
      TruthfulPersists(ss[i], tt[i], o);
    }
  }

  predicate AllTruthful(s: Session, out: seq<Out>) {
    forall o :: o in out ==> o.msg.Reject? || Truthful(s, o)
  }

  // ----------------------------------------------------------------- fan-out

  lemma {:induction false} FanIntroTruthful(s: Session, newcomer: Slot, i: nat)
    requires SessionInv(s) && s.phase != Free && s.peers.At(newcomer).used
    ensures AllTruthful(s, FanIntro(s, newcomer, i))
    decreases 4 - i
  {
    if i < 4 {
      FanIntroTruthful(s, newcomer, i + 1);
      var j: Slot := i;
      if i != newcomer && s.peers.At(j).used {
        assert Owns(s.peers.At(j), s.peers.At(j).publicEp) && Owns(s.peers.At(newcomer), s.peers.At(newcomer).publicEp);
        assert Truthful(s, Intro(s, newcomer, j)) && Truthful(s, Intro(s, j, newcomer));
      }
    }
  }

  lemma {:induction false} ResendIntrosTruthful(s: Session, who: Slot, i: nat)
    requires SessionInv(s) && s.phase != Free && s.peers.At(who).used
    ensures AllTruthful(s, ResendIntros(s, who, i))
    decreases 4 - i
  {
    if i < 4 {
      ResendIntrosTruthful(s, who, i + 1);
      var j: Slot := i;
      if i != who && s.peers.At(j).used {
        assert Owns(s.peers.At(j), s.peers.At(j).publicEp) && Owns(s.peers.At(who), s.peers.At(who).publicEp);
        assert Truthful(s, Intro(s, j, who));
      }
    }
  }

  lemma {:induction false} FanStartTruthful(s: Session, onlyUnacked: bool, i: nat)
    ensures AllTruthful(s, FanStart(s, onlyUnacked, i))
    ensures forall o :: o in FanStart(s, onlyUnacked, i) ==> s.start.Some? && o.msg == Msg.Start(s.start.value)
    decreases 4 - i
  {
    if i < 4 && s.start.Some? {
      FanStartTruthful(s, onlyUnacked, i + 1);
      var j: Slot := i;
      if s.peers.At(j).used {
        assert Owns(s.peers.At(j), s.peers.At(j).publicEp);
      }
    }
  }

  lemma {:induction false} FanRouteTruthful(s: Session, a: Slot, b: Slot, route: u8, i: nat)
    requires a < b && s.pairs.At(a, b).routeSent && s.pairs.At(a, b).route == route
    ensures AllTruthful(s, FanRoute(s, PairRoute(a, b, route), i))
    ensures forall o :: o in FanRoute(s, PairRoute(a, b, route), i) ==> o.msg == PairRoute(a, b, route)
    decreases 4 - i
  {
    if i < 4 {
      FanRouteTruthful(s, a, b, route, i + 1);
      var j: Slot := i;
      if s.peers.At(j).used {
        assert Owns(s.peers.At(j), s.peers.At(j).publicEp);
      }
    }
  }

  // ------------------------------------------------- handlers, one session

  lemma TouchKeeps(s: Session, who: Slot, now: u32)
    requires SessionInv(s) && s.phase != Free && s.peers.At(who).used
    ensures SessionInv(Touch(s, who, now)) && Evolves(s, Touch(s, who, now))
  {
    var t := Touch(s, who, now);
    assert forall k: Slot ::
      t.peers.At(k).startAcked == s.peers.At(k).startAcked && t.peers.At(k).used == s.peers.At(k).used;
    assert AllAcked(t.peers) == AllAcked(s.peers);
  }

  lemma AdmitKeeps(s: Session, now: u32, from: Endpoint, k: Slot, privateEp: Endpoint)
    requires SessionInv(s) && s.phase == Lobby && PeerOf(s, from).None? && s.joined < s.numPlayers
    requires !s.peers.At(k).used && forall l: Slot :: l < k ==> s.peers.At(l).used
    ensures var t := Admit(s, now, from, k, privateEp);
      && SessionInv(t) && Evolves(s, t) && Owns(t.peers.At(k), from)
      && t.peers.At(0) == s.peers.At(0) && t.phase == Lobby
  {
    var t := Admit(s, now, from, k, privateEp);
    assert k == s.joined;
    hide Quad.At, Quad.With, Grid.At, Grid.With;
    assert PeersOk(t);
  }

  lemma JoinKeeps(s: Session, now: u32, from: Endpoint, m: Msg)
    requires SessionInv(s) && s.phase != Free && m.JoinReq?
    ensures var (t, out) := Join(s, now, from, m);
      && SessionInv(t) && Evolves(s, t) && AllTruthful(t, out)
      && t.peers.At(0).publicEp == s.peers.At(0).publicEp && t.phase == s.phase
  {
    var (t, out) := Join(s, now, from, m);
    EvolvesRefl(s);
    hide Quad.At, Quad.With, SessionInv, Evolves, FanIntro, ResendIntros, Admit;
    if s.phase == Lobby {
      match PeerOf(s, from) {
        case Some(k) =>
          TouchKeeps(s, k, now);
          ResendIntrosTruthful(t, k, 0);
          assert Truthful(t, out[0]);
        case None =>
          if m.netVersion == s.netVersion && s.joined < s.numPlayers {
            match FirstSlotFrom(s.peers, (p: Peer) => !p.used, 0) {
              case None =>
              case Some(k) =>
                AdmitKeeps(s, now, from, k, m.privateEp);
                FanIntroTruthful(t, k, 0);
                assert Truthful(t, out[0]);
            }
          }
      }
    }
  }

  lemma RecordKeeps(s: Session, now: u32, rep: Slot, oth: Slot, ok: u8)
    requires SessionInv(s) && s.phase != Free && rep != oth && s.peers.At(rep).used && s.peers.At(oth).used
    ensures var t := Record(s, now, rep, oth, ok);
      && SessionInv(t) && Evolves(s, t) && t.peers.At(rep) == s.peers.At(rep).(lastSeen := now)
      && t.phase == s.phase && t.peers.At(0).publicEp == s.peers.At(0).publicEp
  {
    TouchKeeps(s, rep, now);
    hide Quad.At, Quad.With, Grid.At, Grid.With;
    var t := Record(s, now, rep, oth, ok);
    assert CellsOk(t);
    assert t.peers == Touch(s, rep, now).peers;
  }

  lemma DecideKeeps(s: Session, now: u32, a: Slot, b: Slot)
    requires SessionInv(s) && s.phase != Free && a < b
    requires s.pairs.At(a, b).punch >= 0 && s.pairs.At(b, a).punch >= 0 && !s.pairs.At(a, b).routeSent
    ensures var t := Decide(s, now, a, b);
      && SessionInv(t) && Evolves(s, t) && t.phase == s.phase && t.peers == s.peers
      && t.pairs.At(a, b).routeSent && t.pairs.At(a, b).route == RouteOf(s.pairs, a, b)
  {
    hide Quad.At, Quad.With, Grid.At, Grid.With;
    var t := Decide(s, now, a, b);
    assert !s.pairs.At(b, a).routeSent;
    assert CellsOk(t);
  }

  lemma ArbitrateKeeps(s: Session, now: u32, from: Endpoint, a: Slot, b: Slot)
    requires SessionInv(s) && s.phase != Free && a < b && Member(s, from)
    ensures var (t, out) := Arbitrate(s, now, from, a, b);
      && SessionInv(t) && Evolves(s, t) && AllTruthful(t, out)
      && t.phase == s.phase && t.peers == s.peers
  {
    EvolvesRefl(s);
    hide Quad.At, SessionInv, Evolves, FanRoute, Decide, Grid.At, Member;
    if s.pairs.At(a, b).punch >= 0 && s.pairs.At(b, a).punch >= 0 && !s.pairs.At(a, b).routeSent {
      DecideKeeps(s, now, a, b);
      FanRouteTruthful(Decide(s, now, a, b), a, b, RouteOf(s.pairs, a, b), 0);
    }
  }

  lemma ReportKeeps(s: Session, now: u32, from: Endpoint, m: Msg)
    requires SessionInv(s) && s.phase != Free && m.PunchReport?
    ensures var (t, out) := Report(s, now, from, m);
      && SessionInv(t) && Evolves(s, t) && AllTruthful(t, out)
      && t.phase == s.phase && t.peers.At(0).publicEp == s.peers.At(0).publicEp
  {
    EvolvesRefl(s);
    hide SessionInv, Evolves, Arbitrate, Record, Quad.At, AllTruthful;
    if ReportAccepted(s, from, m) {
      var rep: Slot := PeerOf(s, from).value;
      var oth: Slot := if rep == m.slotA then m.slotB else m.slotA;
      var a: Slot, b: Slot := Min(m.slotA, m.slotB), Max(m.slotA, m.slotB);
      RecordKeeps(s, now, rep, oth, m.ok);
      var t := Record(s, now, rep, oth, m.ok);
      assert Owns(t.peers.At(rep), from);
      ArbitrateKeeps(t, now, from, a, b);
      EvolvesTrans(s, t, Arbitrate(t, now, from, a, b).0);
    }
  }

  lemma BeginStartKeeps(s: Session, now: u32, p: StartParams)
    requires SessionInv(s) && s.phase != Free
    ensures var (t, out) := BeginStart(s, now, p);
      SessionInv(t) && Evolves(s, t) && AllTruthful(t, out) && (s.phase == Lobby ==> t.phase == Starting)
      && (t.phase == Lobby ==> t == s) && t.peers.At(0).publicEp == s.peers.At(0).publicEp
  {
    if s.phase != Running {
      TouchKeeps(s, 0, now);
      var (t, out) := BeginStart(s, now, p);
      assert t.peers == Touch(s, 0, now).peers;
      if s.phase == Lobby {
        assert !t.peers.At(0).startAcked && t.peers.At(0).used;
      }
      FanStartTruthful(t, s.phase != Lobby, 0);
    }
  }

  lemma AckKeeps(s: Session, now: u32, from: Endpoint, m: Msg)
    requires SessionInv(s) && s.phase != Free && m.StartAck?
    ensures var t := Ack(s, now, from, m);
      && SessionInv(t) && Evolves(s, t) && t.peers.At(0).publicEp == s.peers.At(0).publicEp
      && (t.phase == Lobby <==> s.phase == Lobby)
  {
    EvolvesRefl(s);
    if PeerOf(s, from).Some? && m.slot == PeerOf(s, from).value {
      hide SessionInv, Evolves, Touch, AllAcked;
      var k: Slot := m.slot;
      TouchKeeps(s, k, now);
      TouchShape(s, k, now);
      if s.phase == Starting {
        MarkAckKeeps(Touch(s, k, now), k);
        EvolvesTrans(s, Touch(s, k, now), Ack(s, now, from, m));
      }
    }
  }

  lemma TouchShape(s: Session, who: Slot, now: u32)
    ensures var t := Touch(s, who, now);
      t.phase == s.phase && t.peers.At(0).publicEp == s.peers.At(0).publicEp
        && t.peers.At(who).used == s.peers.At(who).used
  {
  }

  /** A member's acknowledgement; the last one starts the match. */
  lemma MarkAckKeeps(t: Session, k: Slot)
    requires SessionInv(t) && t.phase == Starting && t.peers.At(k).used
    ensures var u := t.(peers := t.peers.With(k, t.peers.At(k).(startAcked := true)));
      var v := if AllAcked(u.peers) then u.(phase := Running) else u;
      && SessionInv(v) && Evolves(t, v) && v.peers.At(0).publicEp == t.peers.At(0).publicEp && v.phase != Lobby
  {
    hide Quad.At, Quad.With, Grid.At;
  }

  lemma KeepKeeps(s: Session, now: u32, from: Endpoint)
    requires SessionInv(s) && s.phase != Free
    ensures var t := Keep(s, now, from);
      SessionInv(t) && Evolves(s, t) && t.phase == s.phase && t.peers.At(0).publicEp == s.peers.At(0).publicEp
  {
    if PeerOf(s, from).Some? {
      TouchKeeps(s, PeerOf(s, from).value, now);
    }
  }

  lemma ForwardKeeps(s: Session, now: u32, from: Endpoint, m: Msg)
    requires SessionInv(s) && s.phase != Free && m.Relay? && RelayAccepted(s, from, m) && s.id == m.sessionId
    ensures var t := Forward(s, now, m);
      && SessionInv(t) && Evolves(s, t) && t.phase == s.phase && t.peers.At(0).publicEp == s.peers.At(0).publicEp
      && Truthful(t, Out(s.peers.At(m.toSlot).publicEp, m))
  {
    TouchKeeps(s, m.fromSlot, now);
  }

  lemma OpenKeeps(id: u16, now: u32, from: Endpoint, m: Msg)
    requires m.HostReq? && id != 0
    ensures var t := OpenSession(id, now, from, m);
      && SessionInv(t) && t.phase == Lobby && t.id == id && t.joined == 1
      && Owns(t.peers.At(0), from) && Truthful(t, Out(from, HostResp(id)))
  {
  }

  // ------------------------------------------------------------- the table

  /** Replacing one live session by an evolved one keeps the table. */
  lemma PutKeeps(ss: seq<Session>, i: nat, t: Session)
    requires TableInv(ss) && i < |ss| && ss[i].phase != Free
    requires SessionInv(t) && Evolves(ss[i], t) && t.peers.At(0).publicEp == ss[i].peers.At(0).publicEp
    requires t.phase == Lobby ==> ss[i].phase == Lobby
    ensures TableInv(ss[i := t]) && Advances(ss, ss[i := t])
  {
    assert forall j :: 0 <= j < |ss| && ss[j].phase != Free ==> Evolves(ss[j], ss[j]);
  }

  lemma HostReqKeeps(sv: Server, now: u32, from: Endpoint, m: Msg)
    requires TableInv(sv.sessions) && m.HostReq?
    ensures var (sw, out) := HandleHostReq(sv, now, from, m);
      TableInv(sw.sessions) && Advances(sv.sessions, sw.sessions) && forall o :: o in out ==> Vouched(sw.sessions, o)
  {
    var (sw, out) := HandleHostReq(sv, now, from, m);
    match First(sv.sessions, (s: Session) => HostsLobby(s, from)) {
      case Some(i) =>
        TouchKeeps(sv.sessions[i], 0, now);
        var t := sw.sessions[i];
        PutKeeps(sv.sessions, i, t);
        ResendIntrosTruthful(t, 0, 0);
        assert Truthful(t, out[0]);
      case None =>
        assert forall j :: 0 <= j < |sv.sessions| ==> !HostsLobby(sv.sessions[j], from);
        match First(sv.sessions, (s: Session) => s.phase == Free) {
          case None =>
          case Some(i) =>
            var (rng, id) := PickId(sv.rng, sv.sessions, ID_TRIES);
            if id.Some? {
              OpenKeeps(id.value, now, from, m);
              assert Truthful(sw.sessions[i], out[0]);
            }
        }
    }
  }

  /** Every message keeps the table, lets live sessions only evolve, and is
      answered only with messages that are true of the new table. */
  lemma DispatchKeeps(sv: Server, now: u32, from: Endpoint, m: Msg)
    requires TableInv(sv.sessions)
    ensures var (sw, out) := Dispatch(sv, now, from, m);
      TableInv(sw.sessions) && Advances(sv.sessions, sw.sessions) && forall o :: o in out ==> Vouched(sw.sessions, o)
  {
    hide Join, Report, BeginStart, Ack, Keep, Touch, Owns, HandleHostReq, SessionInv, Evolves;
    var ss := sv.sessions;
    AdvancesRefl(ss);
    var (sw, out) := Dispatch(sv, now, from, m);
    match m {
      case HostReq(_, _, _) => HostReqKeeps(sv, now, from, m);
      case JoinReq(id, _, _) =>
        if FindSession(ss, id).Some? {
          var i := FindSession(ss, id).value;
          JoinKeeps(ss[i], now, from, m);
          PutKeeps(ss, i, sw.sessions[i]);
        }
      case PunchReport(id, _, _, _) =>
        if FindSession(ss, id).Some? {
          var i := FindSession(ss, id).value;
          ReportKeeps(ss[i], now, from, m);
          PutKeeps(ss, i, sw.sessions[i]);
        }
      case Start(p) =>
        if First(ss, (s: Session) => HostsLive(s, from)).Some? {
          var i := First(ss, (s: Session) => HostsLive(s, from)).value;
          BeginStartKeeps(ss[i], now, p);
          PutKeeps(ss, i, sw.sessions[i]);
        }
      case StartAck(id, _) =>
        if FindSession(ss, id).Some? {
          var i := FindSession(ss, id).value;
          AckKeeps(ss[i], now, from, m);
          PutKeeps(ss, i, sw.sessions[i]);
        }
      case Keepalive(id, _) =>
        if FindSession(ss, id).Some? {
          var i := FindSession(ss, id).value;
          KeepKeeps(ss[i], now, from);
          PutKeeps(ss, i, sw.sessions[i]);
        }
      case Relay(id, _, _, _) =>
        if FindSession(ss, id).Some? {
          var i := FindSession(ss, id).value;
          if RelayAccepted(ss[i], from, m) {
            ForwardKeeps(ss[i], now, from, m);
            PutKeeps(ss, i, sw.sessions[i]);
            assert Truthful(sw.sessions[i], out[0]);
          }
        }
      case _ =>
    }
  }

  lemma HandleKeeps(sv: Server, now: u32, from: Endpoint, m: Msg)
    requires TableInv(sv.sessions) && |sv.rate| == RATE_BUCKETS
    ensures var (sw, out) := Handle(sv, now, from, m);
      && TableInv(sw.sessions) && Advances(sv.sessions, sw.sessions)
      && |sw.rate| == RATE_BUCKETS
      && forall o :: o in out ==> Vouched(sw.sessions, o)
  {
    DispatchKeeps(sv, now, from, m);
    if !m.Relay? {
      var k := from.ip % RATE_BUCKETS;
      var (b, ok) := RateTake(sv.rate[k], now);
      DispatchKeeps(sv.(rate := sv.rate[k := b]), now, from, m);
    }
  }
}
