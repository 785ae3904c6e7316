// Every message the server handles keeps each session's part of the bootstrap's
// invariant.

module BootstrapHandle {
  import opened Basics
  import opened LobbyTypes
  import opened Scan
  import opened Bootstrap
  import opened BootstrapServer
  import opened BootstrapDispatch
  import BootstrapPoll
  import R = Rendezvous
  import T = RendezvousTable
  import C = LobbyClient

  // ------------------------------------------------------------ the sender

  lemma MemberKnown(s: System, h: R.Session, e: Endpoint)
    requires Inv(s) && SessionInv(s, h) && h.phase != R.Free && T.Member(h, e)
    ensures e in s.clients && e != s.ep
  {
    var k: Slot :| R.Owns(h.peers.At(k), e);
    assert e in s.clients by { hide Inv; }
    IsPlaced(s, e);
    hide Inv, ClientInv, Home, HasHome, Shape, Seated;
  }

  /** The server never answers itself, except that a refusal could be echoed. */
  lemma NotFromServer(s: System, m: Msg)
    requires Inv(s) && Packet(s.ep, s.ep, m) in s.net
    ensures m.Reject?
  {
    hide ClientInv, SessionInv, T.TableInv, StartTrue, T.Truthful, ClientSaid;
    assert PacketInv(s, Packet(s.ep, s.ep, m));
    assert T.Vouched(s.server.sessions, Out(s.ep, m));
    if !m.Reject? {
      var i :| 0 <= i < |s.server.sessions| && s.server.sessions[i].phase != R.Free
               && T.Truthful(s.server.sessions[i], Out(s.ep, m));
      TruthIsForMembers(s.server.sessions[i], Out(s.ep, m));
      hide Inv;
      TableOf(s);
      MemberKnown(s, s.server.sessions[i], s.ep);
    }
  }

  lemma TruthIsForMembers(h: R.Session, o: Out)
    requires T.Truthful(h, o)
    ensures T.Member(h, o.to)
  {
  }

  lemma Sender(s: System, from: Endpoint, m: Msg)
    requires Inv(s) && Packet(from, s.ep, m) in s.net && !m.Reject?
    ensures from in s.clients && from != s.ep && ClientInv(s, from) && ClientSaid(s, Packet(from, s.ep, m))
  {
    hide Inv, ClientInv, ClientSaid, T.Vouched, StartTrue;
    BootstrapPoll.PacketIn(s, Packet(from, s.ep, m));
    if from == s.ep {
      NotFromServer(s, m);
    } else {
      IsPlaced(s, from);
    }
  }

  // ------------------------------------------------------- session by session

  /** Every session of r keeps its invariant, and every START in r is true. */
  predicate Tidy(s: System, r: (R.Server, seq<Out>)) {
    && (forall i :: 0 <= i < |r.0.sessions| ==> SessionInv(ServerAfter(s, r), r.0.sessions[i]))
    && (forall o :: o in r.1 && o.msg.Start? ==> StartTrue(ServerAfter(s, r), o.to, o.msg.params))
  }

  predicate NoStart(out: seq<Out>) {
    forall o :: o in out ==> !o.msg.Start?
  }

  lemma OldSession(s: System, r: (R.Server, seq<Out>), h: R.Session)
    requires StillDecided(s, r.0.sessions) && SessionInv(s, h)
    ensures SessionInv(ServerAfter(s, r), h)
  {
    if h.phase != R.Free {
      hide SessionInv, StillDecided;
      SamePeopleRefl(h);
      MildInv(s, ServerAfter(s, r), h, h);
    }
  }

  lemma OneChanged(s: System, r: (R.Server, seq<Out>), i: nat, k: R.Session)
    requires StillDecided(s, r.0.sessions) && i < |s.server.sessions| && r.0.sessions == s.server.sessions[i := k]
    requires forall j :: 0 <= j < |s.server.sessions| ==> SessionInv(s, s.server.sessions[j])
    requires SessionInv(ServerAfter(s, r), k)
    requires forall o :: o in r.1 && o.msg.Start? ==> StartTrue(ServerAfter(s, r), o.to, o.msg.params)
    ensures Tidy(s, r)
  {
    hide SessionInv, StillDecided, StartTrue;
    forall j | 0 <= j < |r.0.sessions| ensures SessionInv(ServerAfter(s, r), r.0.sessions[j]) {
      if j != i {
        OldSession(s, r, s.server.sessions[j]);
      }
    }
  }

  lemma NoneChanged(s: System, r: (R.Server, seq<Out>))
    requires StillDecided(s, r.0.sessions) && r.0.sessions == s.server.sessions && NoStart(r.1)
    requires forall j :: 0 <= j < |s.server.sessions| ==> SessionInv(s, s.server.sessions[j])
    ensures Tidy(s, r)
  {
    hide SessionInv, StillDecided, StartTrue;
    forall j | 0 <= j < |r.0.sessions| ensures SessionInv(ServerAfter(s, r), r.0.sessions[j]) {
      OldSession(s, r, s.server.sessions[j]);
    }
  }

  /** What the dispatch lemmas share: the message, and a table that only advanced. */
  predicate Dispatched(s: System, sv: R.Server, from: Endpoint, m: Msg, r: (R.Server, seq<Out>)) {
    && Inv(s) && sv.sessions == s.server.sessions && Packet(from, s.ep, m) in s.net
    && StillDecided(s, r.0.sessions)
  }

  lemma MildTidy(s: System, r: (R.Server, seq<Out>), i: nat, k: R.Session)
    requires StillDecided(s, r.0.sessions) && i < |s.server.sessions| && r.0.sessions == s.server.sessions[i := k]
    requires forall j :: 0 <= j < |s.server.sessions| ==> SessionInv(s, s.server.sessions[j])
    requires s.server.sessions[i].phase != R.Free && SamePeople(s.server.sessions[i], k)
    requires k.pairs == s.server.sessions[i].pairs && k.start == s.server.sessions[i].start && NoStart(r.1)
    ensures Tidy(s, r)
  {
    hide SessionInv, StillDecided, StartTrue, SamePeople;
    MildInv(s, ServerAfter(s, r), s.server.sessions[i], k);
    OneChanged(s, r, i, k);
  }

  // ---------------------------------------------------------------- HOST_REQ

  lemma OpenInv(s: System, t: System, id: u16, now: u32, from: Endpoint, m: Msg)
    requires from in s.clients && s.clients[from].isHost && m.HostReq? && m.numPlayers == s.clients[from].numPlayers
    requires 2 <= m.numPlayers <= 4 && t.clients == s.clients
    ensures SessionInv(t, R.OpenSession(id, now, from, m))
  {
    var k := R.OpenSession(id, now, from, m);
    assert k.peers.At(0) == R.Peer(true, false, from, m.privateEp, now);
    assert forall j: Slot :: j != 0 ==> k.peers.At(j) == R.NO_PEER;
    assert forall a: Slot, b: Slot :: k.pairs.At(a, b) == R.NO_CELL;
    hide Quad.At, R.Grid.At, Home, AllDecided;
    assert MembersOk(t, k);
  }

  lemma HostShape(s: System, e: Endpoint)
    requires e in s.clients && ClientInv(s, e) && s.clients[e].isHost
    ensures 2 <= s.clients[e].numPlayers <= 4
  {
    hide ProbesOk, RoutesOk, KnownOk, StartedOk, Seated, Home, HasHome;
  }

  lemma {:induction false} NoStartInIntros(h: R.Session, who: Slot, i: nat)
    ensures NoStart(R.ResendIntros(h, who, i)) && NoStart(R.FanIntro(h, who, i))
    decreases 4 - i
  {
    if i < 4 {
      NoStartInIntros(h, who, i + 1);
    }
  }

  lemma HostReqTidy(s: System, sv: R.Server, now: u32, from: Endpoint, m: Msg)
    requires m.HostReq? && Dispatched(s, sv, from, m, R.HandleHostReq(sv, now, from, m))
    ensures Tidy(s, R.HandleHostReq(sv, now, from, m))
  {
    hide Inv, ClientInv, StillDecided, SamePeople, Tidy, T.SessionInv, SessionInv, R.PickId, R.OpenSession, R.Touch,
      R.ResendIntros;
    TableOf(s);
    var ss := s.server.sessions;
    var r := R.HandleHostReq(sv, now, from, m);
    match First(ss, (h: R.Session) => R.HostsLobby(h, from)) {
      case Some(i) =>
        TouchPeople(ss[i], 0, now);
        NoStartInIntros(r.0.sessions[i], 0, 0);
        TouchSame(ss[i], 0, now);
        MildTidy(s, r, i, r.0.sessions[i]);
      case None =>
        match First(ss, (h: R.Session) => h.phase == R.Free) {
          case None => NoneChanged(s, r);
          case Some(i) =>
            var (rng, id) := R.PickId(sv.rng, ss, R.ID_TRIES);
            if id.None? {
              NoneChanged(s, r);
            } else {
              Sender(s, from, m);
              HostShape(s, from);
              HostSaid(s, from, m);
              OpenInv(s, ServerAfter(s, r), id.value, now, from, m);
              OneChanged(s, r, i, R.OpenSession(id.value, now, from, m));
            }
        }
    }
  }

  lemma HostSaid(s: System, from: Endpoint, m: Msg)
    requires from in s.clients && m.HostReq? && ClientSaid(s, Packet(from, s.ep, m))
    ensures s.clients[from].isHost && m.numPlayers == s.clients[from].numPlayers
  {
  }

  lemma TouchSame(h: R.Session, who: Slot, now: u32)
    ensures var k := R.Touch(h, who, now); k.pairs == h.pairs && k.start == h.start
  {
  }

  // ---------------------------------------------------------------- JOIN_REQ

  /** A JOIN_REQ for a session that is found names the sender's own home. */
  lemma JoinSaid(s: System, from: Endpoint, m: Msg)
    requires Inv(s) && from in s.clients && ClientInv(s, from) && m.JoinReq? && ClientSaid(s, Packet(from, s.ep, m))
    ensures !s.clients[from].isHost && s.clients[from].sessionId == m.sessionId
    ensures var h := Home(s.server.sessions, m.sessionId);
      h.peers.At(0).publicEp in s.clients && s.clients[h.peers.At(0).publicEp].sessionId == m.sessionId
  {
    hide Inv, ProbesOk, RoutesOk, KnownOk, StartedOk, Home, HasHome, Seated;
  }

  lemma JoinTidy(s: System, sv: R.Server, now: u32, from: Endpoint, m: Msg, i: nat)
    requires i < |sv.sessions| && m.JoinReq? && Dispatched(s, sv, from, m,
      R.Put(sv, i, R.Join(sv.sessions[i], now, from, m)))
    requires R.FindSession(sv.sessions, m.sessionId) == Some(i)
    ensures Tidy(s, R.Put(sv, i, R.Join(sv.sessions[i], now, from, m)))
  {
    hide Inv, ClientInv, ClientSaid, StillDecided, SamePeople, Tidy, T.SessionInv, SessionInv, R.Admit, R.Touch,
      R.ResendIntros, R.FanIntro;
    TableOf(s);
    var h := s.server.sessions[i];
    var r := R.Put(sv, i, R.Join(h, now, from, m));
    SamePeopleRefl(h);
    if h.phase != R.Lobby {
      MildTidy(s, r, i, h);
    } else {
      match R.PeerOf(h, from) {
        case Some(k) =>
          TouchPeople(h, k, now);
          TouchSame(h, k, now);
          NoStartInIntros(R.Touch(h, k, now), k, 0);
          MildTidy(s, r, i, R.Touch(h, k, now));
        case None =>
          if m.netVersion != h.netVersion || h.joined >= h.numPlayers {
            MildTidy(s, r, i, h);
          } else {
            match FirstSlotFrom(h.peers, (p: R.Peer) => !p.used, 0) {
              case None => MildTidy(s, r, i, h);
              case Some(k) =>
                var t := R.Admit(h, now, from, k, m.privateEp);
                Sender(s, from, m);
                JoinSaid(s, from, m);
                AdmitInv(s, ServerAfter(s, r), h, now, from, k, m.privateEp);
                NoStartInIntros(t, k, 0);
                OneChanged(s, r, i, t);
            }
          }
      }
    }
  }

  // ---------------------------------------------------- reports and STARTs

  lemma NoStartInRoutes(h: R.Session, m: Msg, i: nat)
    requires !m.Start?
    ensures NoStart(R.FanRoute(h, m, i))
    decreases 4 - i
  {
  }

  lemma ReportTidy(s: System, sv: R.Server, now: u32, from: Endpoint, m: Msg, i: nat)
    requires i < |sv.sessions| && m.PunchReport?
      && Dispatched(s, sv, from, m, R.Put(sv, i, R.Report(sv.sessions[i], now, from, m)))
    requires R.FindSession(sv.sessions, m.sessionId) == Some(i)
    ensures Tidy(s, R.Put(sv, i, R.Report(sv.sessions[i], now, from, m)))
  {
    hide Inv, ClientInv, ClientSaid, StillDecided, SamePeople, Tidy, T.SessionInv, R.Report, MembersOk, StartOk, TalkOk;
    TableOf(s);
    var h := s.server.sessions[i];
    var r := R.Put(sv, i, R.Report(h, now, from, m));
    var k := r.0.sessions[i];
    Sender(s, from, m);
    ReportSaid(s, from, m);
    HostOf(s, h);
    ReportTalk(s, from, m, now, h);
    MembersStay(s, ServerAfter(s, r), h, k);
    StartStays(s, ServerAfter(s, r), h, k);
    LivePeople(h, k);
    SamePeopleRefl(k);
    TalkStays(s, ServerAfter(s, r), k, k);
    NoStartInReport(h, now, from, m);
    OneChanged(s, r, i, k);
  }

  lemma ReportSaid(s: System, from: Endpoint, m: Msg)
    requires from in s.clients && m.PunchReport? && ClientSaid(s, Packet(from, s.ep, m))
    ensures m.sessionId == s.clients[from].sessionId
  {
  }

  lemma NoStartInReport(h: R.Session, now: u32, from: Endpoint, m: Msg)
    requires m.PunchReport?
    ensures NoStart(R.Report(h, now, from, m).1)
  {
    hide R.Record, R.Decide, R.FanRoute, Quad.At, R.Grid.At;
    if R.ReportAccepted(h, from, m) {
      var rep: Slot := R.PeerOf(h, from).value;
      var oth: Slot := if rep == m.slotA then m.slotB else m.slotA;
      var k := R.Record(h, now, rep, oth, m.ok);
      var a: Slot, b: Slot := Min(m.slotA, m.slotB), Max(m.slotA, m.slotB);
      NoStartInRoutes(R.Decide(k, now, a, b), PairRoute(a, b, R.RouteOf(k.pairs, a, b)), 0);
    }
  }

  lemma StartSaid(s: System, from: Endpoint, m: Msg)
    requires from in s.clients && m.Start? && ClientSaid(s, Packet(from, s.ep, m))
    ensures var c := s.clients[from];
      m.params == C.Params(c) && c.sessionId != 0 && AllDecided(Home(s.server.sessions, c.sessionId))
  {
    hide Home, AllDecided;
  }

  /** Every START a session fans out names that session's host's parameters. */
  lemma StartsTrue(s: System, r: (R.Server, seq<Out>), i: nat, out: seq<Out>)
    requires i < |r.0.sessions| && SessionInv(ServerAfter(s, r), r.0.sessions[i]) && r.0.sessions[i].phase != R.Free
    requires T.AllTruthful(r.0.sessions[i], out)
    requires forall o :: o in out ==> r.0.sessions[i].start.Some? && o.msg == Start(r.0.sessions[i].start.value)
    ensures forall o :: o in out && o.msg.Start? ==> StartTrue(ServerAfter(s, r), o.to, o.msg.params)
  {
    HostOf(ServerAfter(s, r), r.0.sessions[i]);
    hide MembersOk, TalkOk, Home, AllDecided, T.Member, Sent;
    forall o | o in out && o.msg.Start? ensures StartTrue(ServerAfter(s, r), o.to, o.msg.params) {
      assert StartOf(ServerAfter(s, r), i, o.to, o.msg.params);
    }
  }

  lemma BeginTidy(s: System, sv: R.Server, now: u32, from: Endpoint, m: Msg, i: nat)
    requires i < |sv.sessions| && m.Start? && Dispatched(s, sv, from, m,
      R.Put(sv, i, R.BeginStart(sv.sessions[i], now, m.params)))
    requires i < |sv.sessions| && R.HostsLive(sv.sessions[i], from)
    ensures Tidy(s, R.Put(sv, i, R.BeginStart(sv.sessions[i], now, m.params)))
  {
    hide Inv, ClientInv, ClientSaid, StillDecided, SamePeople, Tidy, T.SessionInv, SessionInv, R.BeginStart,
      AllDecided, C.Params, Home;
    TableOf(s);
    var h := s.server.sessions[i];
    var r := R.Put(sv, i, R.BeginStart(h, now, m.params));
    Sender(s, from, m);
    StartSaid(s, from, m);
    BeginInv(s, ServerAfter(s, r), h, now, m.params);
    BeginPeople(h, now, m.params);
    LivePeople(h, r.0.sessions[i]);
    BeginFan(h, now, m.params);
    StartsTrue(s, r, i, r.1);
    OneChanged(s, r, i, r.0.sessions[i]);
  }

  lemma LivePeople(h: R.Session, k: R.Session)
    requires SamePeople(h, k)
    ensures k.phase != R.Free
  {
  }

  lemma BeginFan(h: R.Session, now: u32, p: StartParams)
    ensures var (k, out) := R.BeginStart(h, now, p);
      T.AllTruthful(k, out) && forall o :: o in out ==> k.start.Some? && o.msg == Start(k.start.value)
  {
    var (k, out) := R.BeginStart(h, now, p);
    hide R.Touch, T.AllTruthful;
    if h.phase != R.Running {
      T.FanStartTruthful(k, h.phase != R.Lobby, 0);
    } else {
      T.FanStartTruthful(k, false, 4);
    }
  }

  // ------------------------------------------------------------- everything

  lemma MemberTidy(s: System, sv: R.Server, now: u32, from: Endpoint, m: Msg, i: nat)
    requires m.StartAck? || m.Keepalive? || m.Relay?
    requires R.FindSession(sv.sessions, m.sessionId) == Some(i)
    requires Dispatched(s, sv, from, m, R.Dispatch(sv, now, from, m))
    ensures Tidy(s, R.Dispatch(sv, now, from, m))
  {
    hide Inv, StillDecided, SamePeople, Tidy, T.SessionInv, SessionInv, R.Ack, R.Touch;
    TableOf(s);
    var h := s.server.sessions[i];
    var r := R.Dispatch(sv, now, from, m);
    SamePeopleRefl(h);
    if m.StartAck? {
      AckPeople(h, now, from, m);
      MildTidy(s, r, i, R.Ack(h, now, from, m));
    } else if m.Keepalive? {
      KeepPeople(h, now, from);
      MildTidy(s, r, i, R.Keep(h, now, from));
    } else if R.RelayAccepted(h, from, m) {
      ForwardPeople(h, now, m);
      MildTidy(s, r, i, R.Forward(h, now, m));
    } else {
      MildTidy(s, r, i, h);
    }
  }

  lemma KeepPeople(h: R.Session, now: u32, from: Endpoint)
    requires h.phase != R.Free
    ensures var k := R.Keep(h, now, from); SamePeople(h, k) && k.pairs == h.pairs && k.start == h.start
  {
    SamePeopleRefl(h);
    if R.PeerOf(h, from).Some? {
      TouchPeople(h, R.PeerOf(h, from).value, now);
    }
  }

  lemma ForwardPeople(h: R.Session, now: u32, m: Msg)
    requires h.phase != R.Free && m.Relay? && m.fromSlot < 4
    ensures var k := R.Forward(h, now, m); SamePeople(h, k) && k.pairs == h.pairs && k.start == h.start
  {
    TouchPeople(h, m.fromSlot, now);
  }

  lemma DispatchTidy(s: System, sv: R.Server, now: u32, from: Endpoint, m: Msg)
    requires Dispatched(s, sv, from, m, R.Dispatch(sv, now, from, m))
    ensures Tidy(s, R.Dispatch(sv, now, from, m))
  {
    hide Inv, StillDecided, Tidy, SessionInv, T.SessionInv, R.HandleHostReq, R.Join, R.Report, R.BeginStart;
    TableOf(s);
    var r := R.Dispatch(sv, now, from, m);
    if m.HostReq? {
      HostReqTidy(s, sv, now, from, m);
    } else if m.Start? {
      var q := First(sv.sessions, (h: R.Session) => R.HostsLive(h, from));
      if q.Some? {
        BeginTidy(s, sv, now, from, m, q.value);
      } else {
        NoneChanged(s, r);
      }
    } else if m.JoinReq? || m.PunchReport? || m.StartAck? || m.Keepalive? || m.Relay? {
      var q := R.FindSession(sv.sessions, m.sessionId);
      if q.None? {
        NoneChanged(s, r);
      } else if m.JoinReq? {
        JoinTidy(s, sv, now, from, m, q.value);
      } else if m.PunchReport? {
        ReportTidy(s, sv, now, from, m, q.value);
      } else {
        MemberTidy(s, sv, now, from, m, q.value);
      }
    } else {
      NoneChanged(s, r);
    }
  }
}
