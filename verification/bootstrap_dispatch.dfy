// What each message does to the one session it changes, and that this keeps
// the session's part of the bootstrap's invariant.

module BootstrapDispatch {
  import opened Basics
  import opened LobbyTypes
  import opened Scan
  import opened Bootstrap
  import opened BootstrapServer
  import R = Rendezvous
  import T = RendezvousTable
  import C = LobbyClient

  /** Whatever the host's session had decided stays decided. */
  predicate StillDecided(s: System, tt: seq<R.Session>) {
    forall f :: f in s.clients && s.clients[f].isHost && s.clients[f].sessionId != 0
                && AllDecided(Home(s.server.sessions, s.clients[f].sessionId)) ==>
      AllDecided(Home(tt, s.clients[f].sessionId))
  }

  lemma StillDecidedHolds(s: System, tt: seq<R.Session>)
    requires Inv(s) && T.TableInv(tt) && T.Advances(s.server.sessions, tt)
    ensures StillDecided(s, tt)
  {
    hide Inv, ClientInv, Placed, T.TableInv, T.Advances, HasHome, Home, AllDecided, Persists;
    TableOf(s);
    forall f | f in s.clients && s.clients[f].isHost && s.clients[f].sessionId != 0
               && AllDecided(Home(s.server.sessions, s.clients[f].sessionId))
      ensures AllDecided(Home(tt, s.clients[f].sessionId))
    {
      HostHas(s, f);
      HomePersists(s.server.sessions, tt, s.clients[f].sessionId);
      DecidedKept(s.server.sessions, tt, s.clients[f].sessionId);
    }
  }

  lemma TableOf(s: System)
    requires Inv(s)
    ensures T.TableInv(s.server.sessions) && |s.server.rate| == R.RATE_BUCKETS
    ensures forall i :: 0 <= i < |s.server.sessions| ==>
      SessionInv(s, s.server.sessions[i]) && T.SessionInv(s.server.sessions[i])
  {
    hide ClientInv, PacketInv, SessionInv, T.SessionInv;
  }

  lemma HostHas(s: System, f: Endpoint)
    requires Inv(s) && f in s.clients && s.clients[f].isHost && s.clients[f].sessionId != 0
    ensures HasHome(s.server.sessions, s.clients[f].sessionId)
  {
    IsPlaced(s, f);
    hide Inv, ClientInv, HasHome, Home;
  }

  // ---------------------------------------------------------- mild changes

  predicate SamePeople(h: R.Session, k: R.Session) {
    && k.id == h.id && k.numPlayers == h.numPlayers && k.joined == h.joined && k.phase != R.Free
    && forall j: Slot :: k.peers.At(j).used == h.peers.At(j).used && k.peers.At(j).publicEp == h.peers.At(j).publicEp
  }

  lemma MembersStay(s: System, t: System, h: R.Session, k: R.Session)
    requires MembersOk(s, h) && SamePeople(h, k) && t.clients == s.clients
    ensures MembersOk(t, k)
  {
    hide Quad.At;
  }

  lemma StartStays(s: System, t: System, h: R.Session, k: R.Session)
    requires h.peers.At(0).publicEp in s.clients && StartOk(s, h) && SamePeople(h, k) && t.clients == s.clients
    requires s.clients[h.peers.At(0).publicEp].isHost && StillDecided(s, t.server.sessions)
    requires k.start == h.start
    ensures k.peers.At(0).publicEp in t.clients && StartOk(t, k)
  {
    hide Quad.At, Home, AllDecided, C.Params;
  }

  lemma TalkStays(s: System, t: System, h: R.Session, k: R.Session)
    requires TalkOk(s, h) && SamePeople(h, k) && t.clients == s.clients && k.pairs == h.pairs
    ensures TalkOk(t, k)
  {
    hide Quad.At, R.Grid.At;
  }

  lemma MildInv(s: System, t: System, h: R.Session, k: R.Session)
    requires SessionInv(s, h) && h.phase != R.Free && SamePeople(h, k) && t.clients == s.clients
    requires k.pairs == h.pairs && k.start == h.start && StillDecided(s, t.server.sessions)
    ensures SessionInv(t, k)
  {
    HostOf(s, h);
    hide MembersOk, StartOk, TalkOk, SamePeople, StillDecided;
    MembersStay(s, t, h, k);
    StartStays(s, t, h, k);
    TalkStays(s, t, h, k);
  }

  lemma HostOf(s: System, h: R.Session)
    requires SessionInv(s, h) && h.phase != R.Free
    ensures h.peers.At(0).used && h.peers.At(0).publicEp in s.clients && s.clients[h.peers.At(0).publicEp].isHost
  {
    hide StartOk, TalkOk;
  }

  lemma SamePeopleRefl(h: R.Session)
    requires h.phase != R.Free
    ensures SamePeople(h, h)
  {
  }

  lemma TouchPeople(h: R.Session, who: Slot, now: u32)
    requires h.phase != R.Free
    ensures SamePeople(h, R.Touch(h, who, now))
  {
  }

  lemma AckPeople(h: R.Session, now: u32, from: Endpoint, m: Msg)
    requires h.phase != R.Free && m.StartAck?
    ensures var k := R.Ack(h, now, from, m); SamePeople(h, k) && k.pairs == h.pairs && k.start == h.start
  {
    hide R.AllAcked;
  }

  // ------------------------------------------------------------- admission

  lemma AdmitInv(s: System, t: System, h: R.Session, now: u32, from: Endpoint, j: Slot, priv: Endpoint)
    requires SessionInv(s, h) && h.phase != R.Free && T.SessionInv(h) && !h.peers.At(j).used && h.joined < h.numPlayers
    requires t.clients == s.clients && StillDecided(s, t.server.sessions)
    requires from in s.clients && !s.clients[from].isHost && s.clients[from].sessionId == h.id
    requires s.clients[h.peers.At(0).publicEp].sessionId == h.id
    ensures SessionInv(t, R.Admit(h, now, from, j, priv))
  {
    var k := R.Admit(h, now, from, j, priv);
    HostOf(s, h);
    assert forall l: Slot :: k.peers.At(l) == if l == j then R.Peer(true, h.peers.At(j).startAcked, from, priv, now)
      else h.peers.At(l);
    hide T.SessionInv, Quad.At, Quad.With, R.Grid.At, Home, AllDecided, C.Params;
    assert j != 0;
    assert MembersOk(t, k);
    assert StartOk(t, k);
    assert TalkOk(t, k);
  }

  // -------------------------------------------------------------- reporting

  lemma RecordTalk(s: System, h: R.Session, now: u32, rep: Slot, oth: Slot, ok: u8)
    requires TalkOk(s, h) && Told(s, h, rep, oth) && (ok != 0 ==> Opened(s, h, rep, oth)) && h.phase != R.Free
    ensures var k := R.Record(h, now, rep, oth, ok); TalkOk(s, k) && SamePeople(h, k) && k.start == h.start
  {
    var k := R.Record(h, now, rep, oth, ok);
    TouchPeople(h, rep, now);
    assert forall a: Slot, b: Slot ::
      k.pairs.At(a, b) == if a == rep && b == oth then h.pairs.At(a, b).(punch := if ok != 0 then 1 else 0)
        else h.pairs.At(a, b);
    hide R.Grid.At, R.Grid.With, Quad.At, Quad.With, R.Touch;
    forall a: Slot, b: Slot
      ensures (k.pairs.At(a, b).punch >= 0 ==> Told(s, k, a, b)) && (k.pairs.At(a, b).punch == 1 ==> Opened(s, k, a, b))
              && (k.pairs.At(a, b).routeSent && k.pairs.At(a, b).route == ROUTE_DIRECT ==> Opened(s, k, a, b))
    {
      TalkCell(s, h, a, b);
    }
  }

  lemma TalkCell(s: System, h: R.Session, a: Slot, b: Slot)
    requires TalkOk(s, h)
    ensures (h.pairs.At(a, b).punch >= 0 ==> Told(s, h, a, b)) && (h.pairs.At(a, b).punch == 1 ==> Opened(s, h, a, b))
    ensures h.pairs.At(a, b).routeSent && h.pairs.At(a, b).route == ROUTE_DIRECT ==> Opened(s, h, a, b)
  {
  }

  lemma DecideTalk(s: System, h: R.Session, now: u32, x: Slot, y: Slot)
    requires TalkOk(s, h) && T.CellsOk(h) && h.phase != R.Free && x != y
    requires h.pairs.At(x, y).punch >= 0 && h.pairs.At(y, x).punch >= 0
    ensures var k := R.Decide(h, now, x, y); TalkOk(s, k) && SamePeople(h, k) && k.start == h.start
  {
    var k := R.Decide(h, now, x, y);
    var route := R.RouteOf(h.pairs, x, y);
    assert forall a: Slot, b: Slot ::
      k.pairs.At(a, b) ==
        if (a == x && b == y) || (a == y && b == x) then h.pairs.At(a, b).(routeSent := true, route := route)
          else h.pairs.At(a, b);
    assert h.pairs.At(x, y).punch <= 1 && h.pairs.At(y, x).punch <= 1;
    hide T.CellsOk, R.Grid.At, R.Grid.With, Quad.At, Quad.With, R.Decide;
    forall a: Slot, b: Slot
      ensures (k.pairs.At(a, b).punch >= 0 ==> Told(s, k, a, b)) && (k.pairs.At(a, b).punch == 1 ==> Opened(s, k, a, b))
              && (k.pairs.At(a, b).routeSent && k.pairs.At(a, b).route == ROUTE_DIRECT ==> Opened(s, k, a, b))
    {
      TalkCell(s, h, a, b);
    }
  }

  /** A report the server accepts comes from the slot its sender believes it
      holds, so it says what the sender's own record says. */
  lemma ReportTrue(s: System, from: Endpoint, m: Msg, h: R.Session)
    requires from in s.clients && ClientInv(s, from) && m.PunchReport? && ClientSaid(s, Packet(from, s.ep, m))
    requires h == Home(s.server.sessions, s.clients[from].sessionId) && T.SessionInv(h) && h.phase != R.Free
    requires R.ReportAccepted(h, from, m)
    ensures m.slotA < m.slotB < 4
    ensures var rep: Slot := R.PeerOf(h, from).value;
      var oth: Slot := if rep == m.slotA then m.slotB else m.slotA;
      rep != oth && Told(s, h, rep, oth) && (m.ok != 0 ==> Opened(s, h, rep, oth)) && h.peers.At(oth).used
  {
    hide RoutesOk, KnownOk, StartedOk, Home, HasHome, NoncesOk, T.CellsOk, Shape;
  }

  lemma ArbitrateTalk(s: System, h: R.Session, now: u32, from: Endpoint, a: Slot, b: Slot)
    requires TalkOk(s, h) && T.CellsOk(h) && h.phase != R.Free && a < b
    ensures var k := R.Arbitrate(h, now, from, a, b).0; TalkOk(s, k) && SamePeople(h, k) && k.start == h.start
  {
    hide TalkOk, T.CellsOk, SamePeople, R.FanRoute, R.Decide, R.Grid.At;
    SamePeopleRefl(h);
    if h.pairs.At(a, b).punch >= 0 && h.pairs.At(b, a).punch >= 0 && !h.pairs.At(a, b).routeSent {
      DecideTalk(s, h, now, a, b);
    }
  }

  lemma SamePeopleTrans(h: R.Session, k: R.Session, l: R.Session)
    requires SamePeople(h, k) && SamePeople(k, l)
    ensures SamePeople(h, l)
  {
    hide Quad.At;
  }

  lemma RecordCells(h: R.Session, now: u32, rep: Slot, oth: Slot, ok: u8)
    requires T.SessionInv(h) && h.phase != R.Free && rep != oth && h.peers.At(rep).used && h.peers.At(oth).used
    ensures T.CellsOk(R.Record(h, now, rep, oth, ok)) && R.Record(h, now, rep, oth, ok).phase != R.Free
  {
    T.RecordKeeps(h, now, rep, oth, ok);
    hide T.CellsOk, T.PeersOk, R.Record, T.Evolves;
  }

  lemma ReportTalk(s: System, from: Endpoint, m: Msg, now: u32, h: R.Session)
    requires from in s.clients && ClientInv(s, from) && m.PunchReport? && ClientSaid(s, Packet(from, s.ep, m))
    requires h == Home(s.server.sessions, s.clients[from].sessionId) && T.SessionInv(h) && h.phase != R.Free
    requires TalkOk(s, h)
    ensures var k := R.Report(h, now, from, m).0; TalkOk(s, k) && SamePeople(h, k) && k.start == h.start
  {
    SamePeopleRefl(h);
    if R.ReportAccepted(h, from, m) {
      hide ClientInv, ClientSaid, Told, Opened, T.SessionInv, R.Record, R.Arbitrate, SamePeople, TalkOk, T.CellsOk;
      ReportTrue(s, from, m, h);
      var rep: Slot := R.PeerOf(h, from).value;
      var oth: Slot := if rep == m.slotA then m.slotB else m.slotA;
      var k := R.Record(h, now, rep, oth, m.ok);
      RecordTalk(s, h, now, rep, oth, m.ok);
      RecordCells(h, now, rep, oth, m.ok);
      ArbitrateTalk(s, k, now, from, m.slotA, m.slotB);
      SamePeopleTrans(h, k, R.Arbitrate(k, now, from, m.slotA, m.slotB).0);
    }
  }

  // ---------------------------------------------------------------- START

  lemma BeginPeople(h: R.Session, now: u32, p: StartParams)
    requires h.phase != R.Free
    ensures var k := R.BeginStart(h, now, p).0;
      SamePeople(h, k) && k.pairs == h.pairs && (k.start == Some(p) || k == h)
  {
    hide R.FanStart;
  }

  /** A host's START is recorded as its own parameters over a decided mesh. */
  lemma BeginInv(s: System, t: System, h: R.Session, now: u32, p: StartParams)
    requires SessionInv(s, h) && h.phase != R.Free && t.clients == s.clients && StillDecided(s, t.server.sessions)
    requires var host := s.clients[h.peers.At(0).publicEp];
      p == C.Params(host) && host.sessionId != 0 && AllDecided(Home(s.server.sessions, host.sessionId))
    ensures SessionInv(t, R.BeginStart(h, now, p).0)
  {
    var k := R.BeginStart(h, now, p).0;
    HostOf(s, h);
    BeginPeople(h, now, p);
    SamePeopleRefl(h);
    hide Home, AllDecided, R.BeginStart, C.Params;
    assert StartOk(t, k) by { hide MembersOk, TalkOk; BeginStartOk(s, t, h, k, p); }
    hide StartOk, StillDecided;
    MembersStay(s, t, h, k);
    TalkStays(s, t, h, k);
  }

  lemma BeginStartOk(s: System, t: System, h: R.Session, k: R.Session, p: StartParams)
    requires h.peers.At(0).publicEp in s.clients && s.clients[h.peers.At(0).publicEp].isHost && StartOk(s, h)
    requires SamePeople(h, k) && t.clients == s.clients && StillDecided(s, t.server.sessions)
    requires k.start == Some(p) || k == h
    requires var host := s.clients[h.peers.At(0).publicEp];
      p == C.Params(host) && host.sessionId != 0 && AllDecided(Home(s.server.sessions, host.sessionId))
    ensures k.peers.At(0).publicEp in t.clients && StartOk(t, k)
  {
    hide Home, AllDecided, C.Params, Quad.At;
  }
}
