// The wrapping millisecond clock over whole runs: no session is reaped before
// its time, and no bucket admits more than its rate.

module RendezvousClock {
  import opened Basics
  import opened LobbyTypes
  import opened Scan
  import opened Rendezvous
  import opened RendezvousTable
  import opened RendezvousRuns
  import opened RendezvousRoutes
  import RendezvousTick

  // ------------------------------------------------------------- the stamps

  datatype Which = Activity | Started | Relayed

  function Stamp(s: Session, w: Which): u32 {
    match w
    case Activity => s.lastActivity case Started => s.started case Relayed => s.lastRelay
  }

  /** A step leaves each stamp alone or sets it to the present. */
  predicate Restamps(s: Session, t: Session, now: u32) {
    forall w :: Stamp(t, w) == Stamp(s, w) || Stamp(t, w) == now
  }

  lemma TouchStamps(s: Session, who: Slot, now: u32)
    ensures Restamps(s, Touch(s, who, now), now) && Touch(s, who, now).lastActivity == now
  {
  }

  /** One member packet a session takes in. */
  predicate Accepts(s: Session, from: Endpoint, m: Msg) {
    match m
    case HostReq(_, _, _) => HostsLobby(s, from)
    case JoinReq(_, ver, _) =>
      s.phase == Lobby
      && (PeerOf(s, from).Some?
          || (ver == s.netVersion && s.joined < s.numPlayers && FirstSlotFrom(s.peers, (p: Peer) => !p.used, 0).Some?))
    case PunchReport(_, _, _, _) => ReportAccepted(s, from, m)
    case Start(_) => HostsLive(s, from) && s.phase != Running
    case StartAck(_, slot) => PeerOf(s, from) == Some(slot)
    case Keepalive(_, _) => PeerOf(s, from).Some?
    case Relay(_, _, _, _) => RelayAccepted(s, from, m)
    case _ => false
  }

  lemma JoinStamps(s: Session, now: u32, from: Endpoint, m: Msg)
    requires m.JoinReq?
    ensures var t := Join(s, now, from, m).0; Restamps(s, t, now) && (Accepts(s, from, m) ==> t.lastActivity == now)
  {
    hide FanIntro, ResendIntros;
  }

  lemma ReportStamps(s: Session, now: u32, from: Endpoint, m: Msg)
    requires m.PunchReport?
    ensures var t := Report(s, now, from, m).0; Restamps(s, t, now) && (Accepts(s, from, m) ==> t.lastActivity == now)
  {
    hide FanRoute, Grid.At, Quad.At;
  }

  lemma BeginStamps(s: Session, now: u32, from: Endpoint, m: Msg)
    requires m.Start?
    ensures var t := BeginStart(s, now, m.params).0;
      Restamps(s, t, now) && (Accepts(s, from, m) ==> t.lastActivity == now)
    ensures var t := BeginStart(s, now, m.params).0; s.phase == Lobby ==> t.started == now && t.lastRelay == now
  {
    hide FanStart;
  }

  lemma MemberStamps(s: Session, now: u32, from: Endpoint, m: Msg)
    ensures m.StartAck? ==> var t := Ack(s, now, from, m);
      Restamps(s, t, now) && (Accepts(s, from, m) ==> t.lastActivity == now)
    ensures m.Keepalive? ==> var t := Keep(s, now, from);
      Restamps(s, t, now) && (Accepts(s, from, m) ==> t.lastActivity == now)
    ensures m.Relay? && m.fromSlot < 4 ==>
      var t := Forward(s, now, m); Restamps(s, t, now) && t.lastActivity == now && t.lastRelay == now
  {
    hide AllAcked;
  }

  /** The session a message is handed to. */
  function Addressed(ss: seq<Session>, from: Endpoint, m: Msg): Option<nat> {
    match m
    case HostReq(_, _, _) => First(ss, (s: Session) => HostsLobby(s, from))
    case Start(_) => First(ss, (s: Session) => HostsLive(s, from))
    case JoinReq(id, _, _) => FindSession(ss, id)
    case PunchReport(id, _, _, _) => FindSession(ss, id)
    case StartAck(id, _) => FindSession(ss, id)
    case Keepalive(id, _) => FindSession(ss, id)
    case Relay(id, _, _, _) => FindSession(ss, id)
    case _ => None
  }

  lemma HostReqStamps(sv: Server, now: u32, from: Endpoint, m: Msg, i: nat)
    requires m.HostReq? && i < |sv.sessions| && sv.sessions[i].phase != Free
    ensures var tt := HandleHostReq(sv, now, from, m).0.sessions;
      && |tt| == |sv.sessions| && Restamps(sv.sessions[i], tt[i], now)
      && (Addressed(sv.sessions, from, m) == Some(i) ==> tt[i].lastActivity == now)
  {
    hide PickId, ResendIntros;
    TouchStamps(sv.sessions[i], 0, now);
  }

  lemma SameStamps(s: Session, now: u32)
    ensures Restamps(s, s, now)
  {
  }

  lemma DispatchStamps(sv: Server, now: u32, from: Endpoint, m: Msg, i: nat)
    requires i < |sv.sessions| && sv.sessions[i].phase != Free
    ensures var tt := Dispatch(sv, now, from, m).0.sessions;
      && |tt| == |sv.sessions| && Restamps(sv.sessions[i], tt[i], now)
      && (Addressed(sv.sessions, from, m) == Some(i) && Accepts(sv.sessions[i], from, m) ==>
            tt[i].lastActivity == now && (m.Relay? ==> tt[i].lastRelay == now))
  {
    hide Restamps, Join, Report, BeginStart, Ack, Keep, Forward, HandleHostReq, HostsLive, HostsLobby, Accepts,
      RelayAccepted;
    var s := sv.sessions[i];
    SameStamps(s, now);
    MemberStamps(s, now, from, m);
    if m.HostReq? {
      HostReqStamps(sv, now, from, m, i);
    } else if m.JoinReq? {
      JoinStamps(s, now, from, m);
    } else if m.PunchReport? {
      ReportStamps(s, now, from, m);
    } else if m.Start? {
      BeginStamps(s, now, from, m);
    } else if m.Relay? {
      RelayNeedsAccept(s, from, m);
    } else {
      OthersIgnored(s, from, m);
    }
  }

  lemma RelayNeedsAccept(s: Session, from: Endpoint, m: Msg)
    requires m.Relay?
    ensures Accepts(s, from, m) <==> RelayAccepted(s, from, m)
    ensures RelayAccepted(s, from, m) ==> m.fromSlot < 4
  {
  }

  lemma OthersIgnored(s: Session, from: Endpoint, m: Msg)
    ensures Accepts(s, from, m) ==>
      m.HostReq? || m.JoinReq? || m.PunchReport? || m.Start? || m.StartAck? || m.Keepalive? || m.Relay?
  {
  }

  // ---------------------------------------------------------- over one event

  /** Event n is a packet that the session in slot i takes in from a member. */
  predicate Heard(tr: Trace, n: nat, i: nat)
    requires n < |tr.events| && n < |tr.states| && |tr.states[n].rate| == RATE_BUCKETS
  {
    && tr.events[n].Receive?
    && var ev := tr.events[n];
       && Addressed(tr.states[n].sessions, ev.from, ev.msg) == Some(i)
       && i < |tr.states[n].sessions| && Accepts(At(tr, n, i), ev.from, ev.msg)
       && (ev.msg.Relay? || RateTake(tr.states[n].rate[ev.from.ip % RATE_BUCKETS], Clock(ev.at)).1)
  }

  lemma TakeStamps(tr: Trace, n: nat, i: nat)
    requires Valid(tr) && n < |tr.events| && i < MAX_SESSIONS && Lives(tr, i, n, n + 1)
    ensures Restamps(At(tr, n, i), At(tr, n + 1, i), Clock(tr.events[n].at))
    ensures Heard(tr, n, i) ==> At(tr, n + 1, i).lastActivity == Clock(tr.events[n].at)
    ensures Heard(tr, n, i) && tr.events[n].msg.Relay? ==> At(tr, n + 1, i).lastRelay == Clock(tr.events[n].at)
  {
    TableInvOverRuns(tr, n);
    NextIs(tr, n);
    var sv := tr.states[n];
    assert i < |sv.sessions| && sv.sessions[i].phase != Free && i < |tr.states[n + 1].sessions|
      && tr.states[n + 1].sessions[i].phase != Free;
    hide Valid, Lives, Restamps, Dispatch, TableInv, Accepts, Addressed, RateTake, Tick;
    SameStamps(sv.sessions[i], Clock(tr.events[n].at));
    match tr.events[n] {
      case Receive(at, from, m) =>
        var k := from.ip % RATE_BUCKETS;
        DispatchStamps(sv, Clock(at), from, m, i);
        DispatchStamps(sv.(rate := sv.rate[k := RateTake(sv.rate[k], Clock(at)).0]), Clock(at), from, m, i);
      case Ticks(at) =>
        RendezvousTick.TickKeeps(sv, Clock(at));
        TickStamps(sv.sessions[i], tr.states[n + 1].sessions[i], Clock(at));
    }
  }

  lemma TickStamps(s: Session, t: Session, now: u32)
    requires t.phase != Free && (t == CLEARED || t == s.(lastRefan := t.lastRefan))
    ensures Restamps(s, t, now)
  {
  }

  // --------------------------------------------------------------- over time

  /** A wrapped difference never exceeds the true one. */
  lemma ElapsedIsNoLonger(then': nat, now: nat)
    requires then' <= now
    ensures Elapsed(Clock(now), Clock(then')) <= now - then'
  {
    var d := now - then';
    assert (now % TWO32 - then' % TWO32) % TWO32 == d % TWO32;
  }

  /** A stamp set at event m stands, at every later state of the same life, for
      some true time not before that event. */
  lemma {:induction false} StampSince(tr: Trace, i: nat, w: Which, m: nat, n: nat) returns (y: nat)
    requires Valid(tr) && i < MAX_SESSIONS && m < |tr.events| && m + 1 <= n && Lives(tr, i, m + 1, n)
    requires Stamp(At(tr, m + 1, i), w) == Clock(tr.events[m].at)
    ensures n - 1 < |tr.events| && tr.events[m].at <= y <= tr.events[n - 1].at && Stamp(At(tr, n, i), w) == Clock(y)
    decreases n
  {
    hide Take, Heard;
    if n == m + 1 {
      y := tr.events[m].at;
    } else {
      y := StampSince(tr, i, w, m, n - 1);
      TakeStamps(tr, n - 1, i);
      if Stamp(At(tr, n, i), w) != Stamp(At(tr, n - 1, i), w) {
        y := tr.events[n - 1].at;
      }
    }
  }

  /** A tick within `limit` of the event that set a stamp finds that stamp young. */
  lemma YoungAt(tr: Trace, i: nat, w: Which, m: nat, n: nat, limit: nat)
    requires Valid(tr) && i < MAX_SESSIONS && m < n < |tr.events| && Lives(tr, i, m + 1, n)
    requires Stamp(At(tr, m + 1, i), w) == Clock(tr.events[m].at)
    requires tr.events[n].at - tr.events[m].at <= limit
    ensures Elapsed(Clock(tr.events[n].at), Stamp(At(tr, n, i), w)) <= limit
  {
    var y := StampSince(tr, i, w, m, n);
    ElapsedIsNoLonger(y, tr.events[n].at);
  }

  lemma SurvivesTick(tr: Trace, n: nat, i: nat)
    requires Valid(tr) && n < |tr.events| && i < MAX_SESSIONS && i < |tr.states[n].sessions|
    requires At(tr, n, i).phase != Free && (tr.events[n].Ticks? ==> !Expired(At(tr, n, i), Clock(tr.events[n].at)))
    ensures i < |tr.states[n + 1].sessions| && At(tr, n + 1, i).phase != Free && Evolves(At(tr, n, i), At(tr, n + 1, i))
  {
    hide Evolves, Expired, Take;
    StepOf(tr, n, i);
    if At(tr, n + 1, i).phase != Free {
      EvolvesLive(At(tr, n, i), At(tr, n + 1, i));
    }
  }

  /** Event m opens slot i: the HOST_REQ that made the lobby is its first packet. */
  predicate Opens(tr: Trace, m: nat, i: nat)
    requires m < |tr.events| && |tr.states| == |tr.events| + 1
    requires i < |tr.states[m].sessions| && i < |tr.states[m + 1].sessions|
  {
    At(tr, m, i).phase == Free && At(tr, m + 1, i).phase != Free
  }

  lemma OpensStamps(tr: Trace, m: nat, i: nat)
    requires Valid(tr) && m < |tr.events| && i < MAX_SESSIONS
    requires i < |tr.states[m].sessions| && i < |tr.states[m + 1].sessions| && Opens(tr, m, i)
    ensures At(tr, m + 1, i).lastActivity == Clock(tr.events[m].at)
  {
    hide Take;
    StepOf(tr, m, i);
  }

  /** A LOBBY session outlives every event up to ten minutes after any packet it
      took in from a member, the HOST_REQ that opened it included. */
  lemma LobbySurvives(tr: Trace, i: nat, m: nat, n: nat)
    requires Valid(tr) && i < MAX_SESSIONS && m < n < |tr.events| && Lives(tr, i, m + 1, n)
    requires i < |tr.states[m].sessions| && (Opens(tr, m, i) || Heard(tr, m, i))
    requires At(tr, n, i).phase == Lobby && tr.events[n].at - tr.events[m].at <= LOBBY_EXPIRY_MS
    ensures Lives(tr, i, m + 1, n + 1)
  {
    hide Heard, Take, Evolves;
    if Opens(tr, m, i) {
      OpensStamps(tr, m, i);
    } else {
      HeardLives(tr, m, i);
      TakeStamps(tr, m, i);
    }
    YoungAt(tr, i, Activity, m, n, LOBBY_EXPIRY_MS);
    SurvivesTick(tr, n, i);
  }

  /** Only a live session takes packets in. */
  lemma HeardLives(tr: Trace, m: nat, i: nat)
    requires Valid(tr) && m < |tr.events| && Heard(tr, m, i) && Lives(tr, i, m + 1, m + 1)
    ensures Lives(tr, i, m, m + 1)
  {
    hide Take, RateTake, RelayAccepted;
  }

  lemma FirstStartStamps(tr: Trace, m: nat, i: nat)
    requires Valid(tr) && m < |tr.events| && i < MAX_SESSIONS && Lives(tr, i, m, m + 1)
    requires At(tr, m, i).phase == Lobby && At(tr, m + 1, i).phase != Lobby
    ensures At(tr, m + 1, i).started == Clock(tr.events[m].at) && At(tr, m + 1, i).lastRelay == Clock(tr.events[m].at)
  {
    TableInvOverRuns(tr, m);
    NextIs(tr, m);
    var sv := tr.states[m];
    assert i < |sv.sessions| && sv.sessions[i].phase == Lobby && i < |tr.states[m + 1].sessions|
           && tr.states[m + 1].sessions[i].phase != Lobby && tr.states[m + 1].sessions[i].phase != Free;
    hide Valid, Lives, Dispatch, RateTake, Tick, TableInv;
    match tr.events[m] {
      case Receive(at, from, msg) =>
        var k := from.ip % RATE_BUCKETS;
        StartedByDispatch(sv, Clock(at), from, msg, i);
        StartedByDispatch(sv.(rate := sv.rate[k := RateTake(sv.rate[k], Clock(at)).0]), Clock(at), from, msg, i);
      case Ticks(at) =>
        RendezvousTick.TickKeeps(sv, Clock(at));
    }
  }

  /** Only the first START moves a session out of the lobby. */
  lemma LobbyStays(s: Session, now: u32, from: Endpoint, m: Msg)
    requires SessionInv(s) && s.phase == Lobby
    ensures m.JoinReq? ==> Join(s, now, from, m).0.phase == Lobby
    ensures m.PunchReport? ==> Report(s, now, from, m).0.phase == Lobby
    ensures m.StartAck? ==> Ack(s, now, from, m).phase == Lobby
    ensures Keep(s, now, from).phase == Lobby
  {
    hide SessionInv, Join, Report, Ack, Keep, Evolves, AllTruthful;
    KeepKeeps(s, now, from);
    if m.JoinReq? {
      JoinKeeps(s, now, from, m);
    } else if m.PunchReport? {
      ReportKeeps(s, now, from, m);
    } else if m.StartAck? {
      AckKeeps(s, now, from, m);
    }
  }

  lemma StartedByDispatch(sv: Server, now: u32, from: Endpoint, m: Msg, i: nat)
    requires TableInv(sv.sessions) && i < |sv.sessions| && sv.sessions[i].phase == Lobby
    ensures var tt := Dispatch(sv, now, from, m).0.sessions;
      |tt| == |sv.sessions| && (tt[i].phase == Lobby || (tt[i].started == now && tt[i].lastRelay == now))
  {
    var s := sv.sessions[i];
    assert SessionInv(s);
    hide SessionInv, TableInv, Join, Report, BeginStart, Ack, Keep, Forward, HandleHostReq, RelayAccepted;
    LobbyStays(s, now, from, m);
    if m.HostReq? {
      HostPhase(sv, now, from, m, i);
    } else if m.Start? {
      BeginStamps(s, now, from, m);
    } else if m.Relay? {
      ForwardPhase(s, now, m);
    }
  }

  lemma ForwardPhase(s: Session, now: u32, m: Msg)
    requires m.Relay?
    ensures m.fromSlot < 4 ==> Forward(s, now, m).phase == s.phase
    ensures RelayAccepted(s, NO_ENDPOINT, m) ==> m.fromSlot < 4
  {
  }

  lemma HostPhase(sv: Server, now: u32, from: Endpoint, m: Msg, i: nat)
    requires m.HostReq? && i < |sv.sessions| && sv.sessions[i].phase == Lobby
    ensures var tt := HandleHostReq(sv, now, from, m).0.sessions; |tt| == |sv.sessions| && tt[i].phase == Lobby
  {
    hide PickId, ResendIntros;
  }

  /** A started session without a relayed pair outlives every event up to thirty
      seconds after its first START. */
  lemma StartedSurvives(tr: Trace, i: nat, m: nat, n: nat)
    requires Valid(tr) && i < MAX_SESSIONS && m < n < |tr.events| && Lives(tr, i, m, n)
    requires At(tr, m, i).phase == Lobby && At(tr, m + 1, i).phase != Lobby && !HasRelay(At(tr, n, i))
    requires tr.events[n].at - tr.events[m].at <= STARTED_EXPIRY_MS
    ensures Lives(tr, i, m, n + 1)
  {
    hide Take, Evolves, HasRelay;
    FirstStartStamps(tr, m, i);
    YoungAt(tr, i, Started, m, n, STARTED_EXPIRY_MS);
    LifeEvolves(tr, i, m + 1, n);
    PhaseStays(At(tr, m + 1, i), At(tr, n, i));
    SurvivesTick(tr, n, i);
  }

  lemma PhaseStays(s: Session, t: Session)
    requires Evolves(s, t) && s.phase != Free && s.phase != Lobby
    ensures t.phase != Free && t.phase != Lobby
  {
  }

  /** Events that keep a relayed session going: the first START, a pair decided
      for the relay, a forwarded packet. */
  predicate RelayAlive(tr: Trace, m: nat, i: nat)
    requires m < |tr.events| && |tr.states| == |tr.events| + 1 && |tr.states[m].rate| == RATE_BUCKETS
    requires i < |tr.states[m].sessions| && i < |tr.states[m + 1].sessions|
  {
    || (At(tr, m, i).phase == Lobby && At(tr, m + 1, i).phase != Lobby)
    || (tr.events[m].Receive? && tr.events[m].msg.Relay? && Heard(tr, m, i))
    || SomeRelayDecided(At(tr, m, i), At(tr, m + 1, i))
  }

  predicate SomeRelayDecided(s: Session, t: Session) {
    exists a: Slot, b: Slot :: RelayDecided(s, t, a, b)
  }

  predicate RelayDecided(s: Session, t: Session, a: Slot, b: Slot) {
    !s.pairs.At(a, b).routeSent && t.pairs.At(a, b).routeSent && t.pairs.At(a, b).route == ROUTE_RELAY
  }

  lemma ArbitrateRelay(s: Session, now: u32, from: Endpoint, x: Slot, y: Slot, a: Slot, b: Slot)
    requires s.pairs.At(x, y).routeSent == s.pairs.At(y, x).routeSent
    requires !s.pairs.At(a, b).routeSent && Arbitrate(s, now, from, x, y).0.pairs.At(a, b).routeSent
    requires Arbitrate(s, now, from, x, y).0.pairs.At(a, b).route == ROUTE_RELAY
    ensures Arbitrate(s, now, from, x, y).0.lastRelay == now
  {
    hide FanRoute;
  }

  lemma ReportRelay(s: Session, now: u32, from: Endpoint, m: Msg, a: Slot, b: Slot)
    requires SessionInv(s) && s.phase != Free && m.PunchReport? && !s.pairs.At(a, b).routeSent
    requires var t := Report(s, now, from, m).0; t.pairs.At(a, b).routeSent && t.pairs.At(a, b).route == ROUTE_RELAY
    ensures Report(s, now, from, m).0.lastRelay == now
  {
    hide Record, Arbitrate, CellsOk, PeersOk, Grid.At;
    if ReportAccepted(s, from, m) {
      var rep: Slot := PeerOf(s, from).value;
      var oth: Slot := if rep == m.slotA then m.slotB else m.slotA;
      var x: Slot, y: Slot := Min(m.slotA, m.slotB), Max(m.slotA, m.slotB);
      RecordKeeps(s, now, rep, oth, m.ok);
      var k := Record(s, now, rep, oth, m.ok);
      BothSent(k, x, y);
      RecordDecides(s, now, rep, oth, m.ok, a, b);
      ArbitrateRelay(k, now, from, x, y, a, b);
    }
  }

  lemma DispatchRelay(sv: Server, now: u32, from: Endpoint, m: Msg, i: nat, a: Slot, b: Slot)
    requires TableInv(sv.sessions) && i < |sv.sessions| && sv.sessions[i].phase != Free
    requires var tt := Dispatch(sv, now, from, m).0.sessions;
      && |tt| == |sv.sessions| && !sv.sessions[i].pairs.At(a, b).routeSent
      && tt[i].pairs.At(a, b).routeSent && tt[i].pairs.At(a, b).route == ROUTE_RELAY
    ensures Dispatch(sv, now, from, m).0.sessions[i].lastRelay == now
  {
    assert SessionInv(sv.sessions[i]);
    hide SessionInv, TableInv, Dispatch, Report, Grid.At;
    if m.PunchReport? {
      ReportDispatch(sv, now, from, m, i);
      ReportRelay(sv.sessions[i], now, from, m, a, b);
    } else {
      PairsStay(sv, now, from, m, i);
    }
  }

  lemma DecisionStamps(tr: Trace, m: nat, i: nat, a: Slot, b: Slot)
    requires Valid(tr) && m < |tr.events| && i < MAX_SESSIONS && Lives(tr, i, m, m + 1)
    requires !At(tr, m, i).pairs.At(a, b).routeSent && At(tr, m + 1, i).pairs.At(a, b).routeSent
    requires At(tr, m + 1, i).pairs.At(a, b).route == ROUTE_RELAY
    ensures At(tr, m + 1, i).lastRelay == Clock(tr.events[m].at)
  {
    TableInvOverRuns(tr, m);
    TableInvOverRuns(tr, m + 1);
    NextIs(tr, m);
    var sv := tr.states[m];
    assert sv.sessions[i].phase != Free && tr.states[m + 1].sessions[i].phase != Free;
    hide Valid, Lives, Dispatch, RateTake, Tick, TableInv, Grid.At;
    match tr.events[m] {
      case Receive(at, from, msg) =>
        var k := from.ip % RATE_BUCKETS;
        var (c, ok) := RateTake(sv.rate[k], Clock(at));
        DispatchRelay(if msg.Relay? then sv else sv.(rate := sv.rate[k := c]), Clock(at), from, msg, i, a, b);
      case Ticks(at) =>
        RendezvousTick.TickKeeps(sv, Clock(at));
    }
  }

  lemma RelayStamps(tr: Trace, m: nat, i: nat)
    requires Valid(tr) && m < |tr.events| && i < MAX_SESSIONS && Lives(tr, i, m, m + 1) && RelayAlive(tr, m, i)
    ensures At(tr, m + 1, i).lastRelay == Clock(tr.events[m].at)
  {
    hide Take, Heard, Grid.At;
    if At(tr, m, i).phase == Lobby && At(tr, m + 1, i).phase != Lobby {
      FirstStartStamps(tr, m, i);
    } else if tr.events[m].Receive? && tr.events[m].msg.Relay? && Heard(tr, m, i) {
      TakeStamps(tr, m, i);
    } else {
      var a: Slot, b: Slot :| RelayDecided(At(tr, m, i), At(tr, m + 1, i), a, b);
      DecisionStamps(tr, m, i, a, b);
    }
  }

  /** A started session with a relayed pair outlives every event up to sixty
      seconds after its first START, its latest relay decision or forward. */
  lemma RelayedSurvives(tr: Trace, i: nat, m: nat, n: nat)
    requires Valid(tr) && i < MAX_SESSIONS && m < n < |tr.events| && Lives(tr, i, m, n)
    requires RelayAlive(tr, m, i) && HasRelay(At(tr, n, i)) && At(tr, n, i).phase != Lobby
    requires tr.events[n].at - tr.events[m].at <= RELAY_EXPIRY_MS
    ensures Lives(tr, i, m, n + 1)
  {
    hide Take, Evolves, HasRelay, RelayAlive;
    RelayStamps(tr, m, i);
    YoungAt(tr, i, Relayed, m, n, RELAY_EXPIRY_MS);
    SurvivesTick(tr, n, i);
  }

  // ------------------------------------------------------- the token bucket

  const CAP := RATE_BURST * 1000

  /** Refill is plain saturating arithmetic: the long-idle branch gives what the
      other one would, and the other one never leaves 32 bits. */
  lemma RefillSaturates(b: Bucket, now: u32)
    requires b.tokensMilli <= CAP
    ensures var dt := Elapsed(now, b.lastMs);
      var filled := Min(b.tokensMilli + RATE_PER_SEC * dt, CAP);
      && RateTake(b, now) == (if filled < 1000 then (Bucket(filled, now), false)
         else (Bucket(filled - 1000, now), true))
      && (dt <= CAP / RATE_PER_SEC ==> b.tokensMilli + RATE_PER_SEC * dt < TWO32)
  {
  }

  predicate Draws(ev: Event, k: nat) {
    ev.Receive? && !ev.msg.Relay? && ev.from.ip % RATE_BUCKETS == k
  }

  /** How many of the events from m to n bucket k let through. */
  function Admitted(tr: Trace, k: nat, m: nat, n: nat): nat
    requires k < RATE_BUCKETS && m <= n <= |tr.events| <= |tr.states|
    requires forall j :: 0 <= j < |tr.states| ==> |tr.states[j].rate| == RATE_BUCKETS
    decreases n
  {
    if n == m then 0
    else
      var ev := tr.events[n - 1];
      Admitted(tr, k, m, n - 1)
      + (if Draws(ev, k) && RateTake(tr.states[n - 1].rate[k], Clock(ev.at)).1 then 1 else 0)
  }

  lemma AllRates(tr: Trace)
    requires Valid(tr)
    ensures forall j :: 0 <= j < |tr.states| ==> |tr.states[j].rate| == RATE_BUCKETS
  {
    hide ServerInv, Valid;
    forall j | 0 <= j < |tr.states| ensures |tr.states[j].rate| == RATE_BUCKETS {
      assert j <= |tr.events| by { LengthOf(tr); }
      TableInvOverRuns(tr, j);
      RateLength(tr.states[j]);
    }
  }

  lemma LengthOf(tr: Trace)
    requires Valid(tr)
    ensures |tr.states| == |tr.events| + 1
  {
  }

  lemma RateLength(sv: Server)
    requires ServerInv(sv)
    ensures |sv.rate| == RATE_BUCKETS
  {
  }

  /** One event's effect on bucket k. */
  lemma BucketStep(sv: Server, ev: Event, k: nat)
    requires |sv.rate| == RATE_BUCKETS && k < RATE_BUCKETS
    ensures var sw := Take(sv, ev).0;
      && |sw.rate| == RATE_BUCKETS
      && sw.rate[k] == if Draws(ev, k) then RateTake(sv.rate[k], Clock(ev.at)).0 else sv.rate[k]
  {
    match ev {
      case Receive(at, from, m) =>
        hide RateTake, Dispatch;
        var j := from.ip % RATE_BUCKETS;
        var c := RateTake(sv.rate[j], Clock(at)).0;
        DispatchRate(sv, Clock(at), from, m);
        DispatchRate(sv.(rate := sv.rate[j := c]), Clock(at), from, m);
      case Ticks(at) =>
        hide Tick, TickFrom;
        RendezvousTick.TickFromIs(sv, Clock(at), 0);
        assert Tick(sv, Clock(at)) == TickFrom(sv, Clock(at), 0) by { TickIs(sv, Clock(at)); }
    }
  }

  lemma TickIs(sv: Server, now: u32)
    ensures Tick(sv, now) == TickFrom(sv, now, 0)
  {
  }

  lemma DispatchRate(sv: Server, now: u32, from: Endpoint, m: Msg)
    ensures Dispatch(sv, now, from, m).0.rate == sv.rate
  {
    hide Join, Report, BeginStart, Ack, Keep, Forward, RelayAccepted, PickId, Touch, OpenSession;
  }

  /** The bucket's level, its stamp's true time y, and what was admitted from m on. */
  predicate Level(tr: Trace, k: nat, m: nat, n: nat, adm: nat, y: nat)
    requires k < RATE_BUCKETS && m < |tr.events| && n < |tr.states| && |tr.states[n].rate| == RATE_BUCKETS
  {
    var b := tr.states[n].rate[k];
    && b.tokensMilli <= CAP && b.lastMs == Clock(y)
    && (adm > 0 ==> tr.events[m].at <= y && b.tokensMilli + 1000 * adm <= CAP + RATE_PER_SEC * (y - tr.events[m].at))
    && (tr.events[m].at <= y ==> b.tokensMilli + 1000 * adm <= CAP + RATE_PER_SEC * (y - tr.events[m].at))
  }

  lemma DrawLevel(b: Bucket, y: nat, at: nat, base: nat, adm: nat)
    requires b.tokensMilli <= CAP && b.lastMs == Clock(y) && y <= at && base <= at
    requires adm > 0 ==> base <= y
    requires base <= y ==> b.tokensMilli + 1000 * adm <= CAP + RATE_PER_SEC * (y - base)
    ensures var (c, ok) := RateTake(b, Clock(at));
      && c.tokensMilli <= CAP && c.lastMs == Clock(at)
      && c.tokensMilli + 1000 * (adm + if ok then 1 else 0) <= CAP + RATE_PER_SEC * (at - base)
  {
    RefillSaturates(b, Clock(at));
    ElapsedIsNoLonger(y, at);
  }

  lemma {:induction false} LevelAt(tr: Trace, k: nat, m: nat, n: nat) returns (y: nat)
    requires Valid(tr) && k < RATE_BUCKETS && m <= n <= |tr.events| && m < |tr.events|
    ensures forall j :: 0 <= j < |tr.states| ==> |tr.states[j].rate| == RATE_BUCKETS
    ensures Level(tr, k, m, n, Admitted(tr, k, m, n), y)
    ensures y <= if n == 0 then tr.bootMs else tr.events[n - 1].at
    decreases n
  {
    AllRates(tr);
    hide RateTake, Take;
    if n == 0 {
      y := tr.bootMs;
      assert Admitted(tr, k, m, n) == 0;
      assert tr.states[0].rate[k] == Bucket(CAP, Clock(y));
    } else if n == m {
      y := OldLevel(tr, k, n);
    } else {
      y := LevelAt(tr, k, m, n - 1);
      var ev := tr.events[n - 1];
      BucketStep(tr.states[n - 1], ev, k);
      if Draws(ev, k) {
        DrawLevel(tr.states[n - 1].rate[k], y, ev.at, tr.events[m].at, Admitted(tr, k, m, n - 1));
        y := ev.at;
      }
    }
  }

  /** The bucket at state n, before anything is counted. */
  lemma {:induction false} OldLevel(tr: Trace, k: nat, n: nat) returns (y: nat)
    requires Valid(tr) && k < RATE_BUCKETS && n <= |tr.events|
    ensures |tr.states[n].rate| == RATE_BUCKETS
    ensures tr.states[n].rate[k].tokensMilli <= CAP && tr.states[n].rate[k].lastMs == Clock(y)
    ensures y <= if n == 0 then tr.bootMs else tr.events[n - 1].at
    decreases n
  {
    AllRates(tr);
    hide RateTake, Take;
    if n == 0 {
      y := tr.bootMs;
    } else {
      y := OldLevel(tr, k, n - 1);
      var ev := tr.events[n - 1];
      BucketStep(tr.states[n - 1], ev, k);
      if Draws(ev, k) {
        DrawLevel(tr.states[n - 1].rate[k], y, ev.at, ev.at, 0);
        y := ev.at;
      }
    }
  }

  /** In any stretch of any run, what a bucket admits is bounded by the burst plus
      the sustained rate over the stretch's true duration. */
  lemma BucketBound(tr: Trace, k: nat, m: nat, n: nat)
    requires Valid(tr) && k < RATE_BUCKETS && m < n <= |tr.events|
    ensures forall j :: 0 <= j < |tr.states| ==> |tr.states[j].rate| == RATE_BUCKETS
    ensures 1000 * Admitted(tr, k, m, n) <= 40000 + 20 * (tr.events[n - 1].at - tr.events[m].at)
    ensures forall j :: 0 <= j < |tr.states| ==> tr.states[j].rate[k].tokensMilli <= 40000
  {
    var y := LevelAt(tr, k, m, n);
    hide Take, RateTake, Admitted;
    forall j | 0 <= j < |tr.states| ensures tr.states[j].rate[k].tokensMilli <= 40000 {
      var z := OldLevel(tr, k, j);
    }
  }
}
