// Route verdicts over a session's whole life: every PAIR_ROUTE ever sent for a
// pair carries one route, fixed once, from what both sides had reported.

module RendezvousRoutes {
  import opened Basics
  import opened LobbyTypes
  import opened Scan
  import opened Rendezvous
  import opened RendezvousTable
  import opened RendezvousRuns
  import RendezvousTick

  // ------------------------------------------------------ one event's effect

  /** How a verdict may appear: decided for good from two recorded reports. */
  predicate DecidesWell(s: Session, t: Session, a: Slot, b: Slot) {
    var x, y := t.pairs.At(a, b), t.pairs.At(b, a);
    !s.pairs.At(a, b).routeSent && x.routeSent ==>
      && 0 <= x.punch <= 1 && 0 <= y.punch <= 1
      && (x.route == ROUTE_DIRECT <==> x.punch == 1 && y.punch == 1)
  }

  lemma RecordDecides(s: Session, now: u32, rep: Slot, oth: Slot, ok: u8, a: Slot, b: Slot)
    requires rep != oth
    ensures Record(s, now, rep, oth, ok).pairs.At(a, b).routeSent == s.pairs.At(a, b).routeSent
  {
  }

  lemma ArbitrateDecides(s: Session, now: u32, from: Endpoint, x: Slot, y: Slot, a: Slot, b: Slot)
    requires CellsOk(s) && x != y && s.pairs.At(x, y).routeSent == s.pairs.At(y, x).routeSent
    ensures DecidesWell(s, Arbitrate(s, now, from, x, y).0, a, b)
  {
    hide FanRoute;
    var t := Arbitrate(s, now, from, x, y).0;
    assert -1 <= s.pairs.At(x, y).punch <= 1 && -1 <= s.pairs.At(y, x).punch <= 1;
    if t != s {
      var route := RouteOf(s.pairs, x, y);
      assert forall c: Slot, d: Slot ::
        t.pairs.At(c, d) ==
          if (c == x && d == y) || (c == y && d == x) then s.pairs.At(c, d).(routeSent := true, route := route)
            else s.pairs.At(c, d);
      hide Arbitrate, CellsOk, Grid.At;
    }
  }

  lemma ReportDecides(s: Session, now: u32, from: Endpoint, m: Msg, a: Slot, b: Slot)
    requires SessionInv(s) && s.phase != Free && m.PunchReport?
    ensures DecidesWell(s, Report(s, now, from, m).0, a, b)
  {
    hide Record, Arbitrate, CellsOk, PeersOk, Grid.At;
    if ReportAccepted(s, from, m) {
      var rep: Slot := PeerOf(s, from).value;
      var oth: Slot := if rep == m.slotA then m.slotB else m.slotA;
      var x: Slot, y: Slot := Min(m.slotA, m.slotB), Max(m.slotA, m.slotB);
      RecordKeeps(s, now, rep, oth, m.ok);
      var k := Record(s, now, rep, oth, m.ok);
      BothSent(k, x, y);
      ArbitrateDecides(k, now, from, x, y, a, b);
      RecordDecides(s, now, rep, oth, m.ok, a, b);
    }
  }

  lemma BothSent(s: Session, a: Slot, b: Slot)
    requires SessionInv(s) && s.phase != Free
    ensures CellsOk(s) && s.pairs.At(a, b).routeSent == s.pairs.At(b, a).routeSent
  {
  }

  lemma OtherPairs(s: Session, now: u32, from: Endpoint, m: Msg)
    ensures m.JoinReq? ==> Join(s, now, from, m).0.pairs == s.pairs
    ensures m.Start? ==> BeginStart(s, now, m.params).0.pairs == s.pairs
    ensures m.StartAck? ==> Ack(s, now, from, m).pairs == s.pairs
    ensures Keep(s, now, from).pairs == s.pairs
    ensures m.Relay? && m.fromSlot < 4 ==> Forward(s, now, m).pairs == s.pairs
  {
    hide FanIntro, ResendIntros, FanStart, AllAcked;
  }

  lemma HostPairs(sv: Server, now: u32, from: Endpoint, m: Msg, i: nat)
    requires m.HostReq? && i < |sv.sessions| && sv.sessions[i].phase != Free
    ensures var (sw, out) := HandleHostReq(sv, now, from, m);
      |sw.sessions| == |sv.sessions| && sw.sessions[i].pairs == sv.sessions[i].pairs
  {
    hide PickId, ResendIntros;
  }

  /** Only a report touches the pair matrix. */
  lemma PairsStay(sv: Server, now: u32, from: Endpoint, m: Msg, i: nat)
    requires i < |sv.sessions| && sv.sessions[i].phase != Free && !m.PunchReport?
    ensures var tt := Dispatch(sv, now, from, m).0.sessions;
      |tt| == |sv.sessions| && tt[i].pairs == sv.sessions[i].pairs
  {
    hide Join, BeginStart, Ack, Keep, Forward, HandleHostReq, RelayAccepted;
    OtherPairs(sv.sessions[i], now, from, m);
    if m.HostReq? {
      HostPairs(sv, now, from, m, i);
    } else if m.Relay? {
      RelaySlots(sv.sessions[i], from, m);
    }
  }

  lemma RelaySlots(s: Session, from: Endpoint, m: Msg)
    requires m.Relay?
    ensures RelayAccepted(s, from, m) ==> m.fromSlot < 4
  {
  }

  /** A report changes at most the session it names. */
  lemma ReportDispatch(sv: Server, now: u32, from: Endpoint, m: Msg, i: nat)
    requires i < |sv.sessions| && m.PunchReport?
    ensures var tt := Dispatch(sv, now, from, m).0.sessions;
      |tt| == |sv.sessions| && (tt[i] == sv.sessions[i] || tt[i] == Report(sv.sessions[i], now, from, m).0)
  {
    hide Report;
  }

  lemma DispatchDecides(sv: Server, now: u32, from: Endpoint, m: Msg, i: nat, a: Slot, b: Slot)
    requires TableInv(sv.sessions) && i < |sv.sessions| && sv.sessions[i].phase != Free
    ensures var tt := Dispatch(sv, now, from, m).0.sessions;
      |tt| == |sv.sessions| && DecidesWell(sv.sessions[i], tt[i], a, b)
  {
    var s := sv.sessions[i];
    assert SessionInv(s);
    hide SessionInv, TableInv, Dispatch, Report, DecidesWell;
    SameDecides(s, Dispatch(sv, now, from, m).0.sessions[i], a, b);
    if m.PunchReport? {
      ReportDispatch(sv, now, from, m, i);
      ReportDecides(s, now, from, m, a, b);
    } else {
      PairsStay(sv, now, from, m, i);
    }
  }

  lemma TakeDecides(sv: Server, ev: Event, i: nat, a: Slot, b: Slot)
    requires ServerInv(sv) && i < |sv.sessions| && sv.sessions[i].phase != Free
    requires |Take(sv, ev).0.sessions| == |sv.sessions| && Take(sv, ev).0.sessions[i].phase != Free
    ensures DecidesWell(sv.sessions[i], Take(sv, ev).0.sessions[i], a, b)
  {
    hide TableInv, Dispatch, Tick, RateTake, DecidesWell;
    match ev {
      case Receive(at, from, m) =>
        var k := from.ip % RATE_BUCKETS;
        var (c, ok) := RateTake(sv.rate[k], Clock(at));
        var lim := if m.Relay? then sv else sv.(rate := sv.rate[k := c]);
        DispatchDecides(lim, Clock(at), from, m, i, a, b);
        SameDecides(sv.sessions[i], sv.sessions[i], a, b);
      case Ticks(at) =>
        RendezvousTick.TickKeeps(sv, Clock(at));
        assert CLEARED.phase == Free;
        SameDecides(sv.sessions[i], Take(sv, ev).0.sessions[i], a, b);
    }
  }

  lemma SameDecides(s: Session, t: Session, a: Slot, b: Slot)
    ensures t.pairs == s.pairs ==> DecidesWell(s, t, a, b)
  {
  }

  // ------------------------------------------------------------ over a life

  /** The event at d decided the pair (a, b) of the session in slot i. */
  predicate DecidedAt(tr: Trace, i: nat, d: nat, k: nat, a: Slot, b: Slot) {
    && d < k && Lives(tr, i, d, k)
    && !At(tr, d, i).pairs.At(a, b).routeSent
    && var x, y := At(tr, d + 1, i).pairs.At(a, b), At(tr, d + 1, i).pairs.At(b, a);
       && x.routeSent && x.route == At(tr, k, i).pairs.At(a, b).route
       && 0 <= x.punch <= 1 && 0 <= y.punch <= 1
       && (x.route == ROUTE_DIRECT <==> x.punch == 1 && y.punch == 1)
  }

  lemma LivesMore(tr: Trace, i: nat, d: nat, k: nat)
    requires Lives(tr, i, d, k) && k + 1 < |tr.states| && i < |tr.states[k + 1].sessions|
      && At(tr, k + 1, i).phase != Free
    ensures Lives(tr, i, d, k + 1)
  {
  }

  /** A verdict on record was decided at one event of this very session's life:
      DIRECT exactly when both sides had reported success by then. */
  lemma {:induction false} VerdictHasOrigin(tr: Trace, i: nat, k: nat, a: Slot, b: Slot) returns (d: nat)
    requires Valid(tr) && i < MAX_SESSIONS && k < |tr.states| && i < |tr.states[k].sessions|
    requires At(tr, k, i).phase != Free && At(tr, k, i).pairs.At(a, b).routeSent
    ensures DecidedAt(tr, i, d, k, a, b)
  {
    hide Evolves, Take, Grid.At, DecidesWell, TableInv, Lives;
    d := 0;
    BornFree(tr, i);
    if k > 0 {
      StepOf(tr, k - 1, i);
      TableInvOverRuns(tr, k - 1);
      TableInvOverRuns(tr, k);
      NextIs(tr, k - 1);
      var s, t := At(tr, k - 1, i), At(tr, k, i);
      assert s.phase != Free by { NoCellsSent(a, b); }
      TakeDecides(tr.states[k - 1], tr.events[k - 1], i, a, b);
      if s.pairs.At(a, b).routeSent {
        d := VerdictHasOrigin(tr, i, k - 1, a, b);
        RouteStays(s, t, a, b);
        LivesMore(tr, i, d, k - 1);
      } else {
        d := k - 1;
        LivesOnce(tr, i, k - 1);
        Decides(s, t, a, b);
      }
    }
  }

  lemma BornFree(tr: Trace, i: nat)
    requires Valid(tr) && i < MAX_SESSIONS
    ensures i < |tr.states[0].sessions| && At(tr, 0, i).phase == Free
  {
  }

  lemma NoCellsSent(a: Slot, b: Slot)
    ensures !NO_CELLS.At(a, b).routeSent && CLEARED.phase == Free
  {
  }

  lemma RouteStays(s: Session, t: Session, a: Slot, b: Slot)
    requires Evolves(s, t) && s.pairs.At(a, b).routeSent
    ensures t.pairs.At(a, b).route == s.pairs.At(a, b).route && t.pairs.At(a, b).routeSent
  {
  }

  lemma Decides(s: Session, t: Session, a: Slot, b: Slot)
    requires DecidesWell(s, t, a, b) && !s.pairs.At(a, b).routeSent && t.pairs.At(a, b).routeSent
    ensures var x, y := t.pairs.At(a, b), t.pairs.At(b, a);
      && 0 <= x.punch <= 1 && 0 <= y.punch <= 1
      && (x.route == ROUTE_DIRECT <==> x.punch == 1 && y.punch == 1)
  {
  }

  lemma LivesOnce(tr: Trace, i: nat, k: nat)
    requires k + 1 < |tr.states| && i < |tr.states[k].sessions| && i < |tr.states[k + 1].sessions|
    requires At(tr, k, i).phase != Free && At(tr, k + 1, i).phase != Free
    ensures Lives(tr, i, k, k + 1)
  {
  }

  // ------------------------------------------------------------ emissions

  predicate SendsRoute(out: seq<Out>, a: int, b: int, r: u8) {
    exists o :: o in out && o.msg.PairRoute? && o.msg.slotA == a && o.msg.slotB == b && o.msg.route == r
  }

  /** At event n, a report to the session in slot i is answered with a PAIR_ROUTE. */
  predicate Emits(tr: Trace, n: nat, i: nat, a: int, b: int, r: u8)
    requires n < |tr.events| && n < |tr.states| && |tr.states[n].rate| == RATE_BUCKETS
  {
    && SendsRoute(Take(tr.states[n], tr.events[n]).1, a, b, r)
    && tr.events[n].Receive? && tr.events[n].msg.PunchReport?
    && FindSession(tr.states[n].sessions, tr.events[n].msg.sessionId) == Some(i)
  }

  lemma FanSilent(s: Session, who: Slot, i: nat, a: int, b: int, r: u8)
    ensures !SendsRoute(FanIntro(s, who, i), a, b, r) && !SendsRoute(ResendIntros(s, who, i), a, b, r)
    ensures !SendsRoute(FanStart(s, true, i), a, b, r) && !SendsRoute(FanStart(s, false, i), a, b, r)
    decreases 4 - i
  {
    if i < 4 {
      FanSilent(s, who, i + 1, a, b, r);
    }
  }

  lemma OthersSilent(s: Session, now: u32, from: Endpoint, m: Msg, a: int, b: int, r: u8)
    ensures m.JoinReq? ==> !SendsRoute(Join(s, now, from, m).1, a, b, r)
    ensures m.Start? ==> !SendsRoute(BeginStart(s, now, m.params).1, a, b, r)
    ensures !SendsRoute(Refan(s, now).1, a, b, r)
  {
    hide FanIntro, ResendIntros, FanStart, Touch, Admit;
    FanSilent(s, 0, 0, a, b, r);
    if m.Start? {
      FanSilent(BeginStart(s, now, m.params).0, 0, 0, a, b, r);
    }
    if m.JoinReq? {
      var t := Join(s, now, from, m).0;
      match PeerOf(s, from) {
        case Some(k) => FanSilent(t, k, 0, a, b, r);
        case None =>
          match FirstSlotFrom(s.peers, (p: Peer) => !p.used, 0) {
            case None =>
            case Some(k) => FanSilent(t, k, 0, a, b, r);
          }
      }
    }
  }

  lemma HostSilent(sv: Server, now: u32, from: Endpoint, m: Msg, a: int, b: int, r: u8)
    requires m.HostReq?
    ensures !SendsRoute(HandleHostReq(sv, now, from, m).1, a, b, r)
  {
    hide PickId, ResendIntros, Touch, OpenSession;
    match First(sv.sessions, (s: Session) => HostsLobby(s, from)) {
      case Some(i) => FanSilent(Touch(sv.sessions[i], 0, now), 0, 0, a, b, r);
      case None =>
    }
  }

  lemma TickSilent(sv: Server, now: u32, a: int, b: int, r: u8)
    ensures !SendsRoute(Tick(sv, now).1, a, b, r)
  {
    hide TickFrom, Refan, Expired;
    RendezvousTick.TickFromIs(sv, now, 0);
    forall o | o in Tick(sv, now).1
      ensures !(o.msg.PairRoute? && o.msg.slotA == a && o.msg.slotB == b && o.msg.route == r)
    {
      var j: nat :| RendezvousTick.TickOutput(sv.sessions, now, j, o);
      OthersSilent(sv.sessions[j], now, NO_ENDPOINT, Punch(0, 0, 0), a, b, r);
    }
  }

  /** PAIR_ROUTE is only ever the answer to a report to a live session. */
  lemma OnlyReportsEmit(tr: Trace, n: nat, a: int, b: int, r: u8)
    requires Valid(tr) && n < |tr.events| && SendsRoute(Take(tr.states[n], tr.events[n]).1, a, b, r)
    ensures exists i :: Emits(tr, n, i, a, b, r)
  {
    var sv := tr.states[n];
    hide Valid, HandleHostReq, Join, Report, BeginStart, Ack, Keep, Forward, RelayAccepted, RateTake, Touch, Refan;
    match tr.events[n] {
      case Ticks(at) =>
        TickSilent(sv, Clock(at), a, b, r);
      case Receive(at, from, m) =>
        if m.HostReq? {
          HostSilent(sv, Clock(at), from, m, a, b, r);
          var k := from.ip % RATE_BUCKETS;
          HostSilent(sv.(rate := sv.rate[k := RateTake(sv.rate[k], Clock(at)).0]), Clock(at), from, m, a, b, r);
        } else if m.PunchReport? {
          assert FindSession(sv.sessions, m.sessionId).Some?;
          assert Emits(tr, n, FindSession(sv.sessions, m.sessionId).value, a, b, r);
        } else if m.JoinReq? {
          if FindSession(sv.sessions, m.sessionId).Some? {
            OthersSilent(sv.sessions[FindSession(sv.sessions, m.sessionId).value], Clock(at), from, m, a, b, r);
          }
        } else if m.Start? {
          var q := First(sv.sessions, (s: Session) => HostsLive(s, from));
          if q.Some? {
            OthersSilent(sv.sessions[q.value], Clock(at), from, m, a, b, r);
          }
        }
    }
  }

  /** What is emitted is what the session then has on record. */
  lemma EmittedIsOnRecord(tr: Trace, n: nat, i: nat, a: int, b: int, r: u8)
    requires Valid(tr) && n < |tr.events| && Emits(tr, n, i, a, b, r)
    ensures 0 <= a < b < 4 && i < MAX_SESSIONS && Lives(tr, i, n, n + 1)
    ensures At(tr, n + 1, i).pairs.At(a, b).routeSent && At(tr, n + 1, i).pairs.At(a, b).route == r
  {
    var sv := tr.states[n];
    TableInvOverRuns(tr, n);
    TableInvOverRuns(tr, n + 1);
    var at, from, m := tr.events[n].at, tr.events[n].from, tr.events[n].msg;
    var s := sv.sessions[i];
    assert SessionInv(s);
    hide Valid, SessionInv, Report, RateTake, Grid.At, Truthful, Evolves;
    ReportKeeps(s, Clock(at), from, m);
    var t := Report(s, Clock(at), from, m).0;
    assert tr.states[n + 1].sessions[i] == t && Take(sv, tr.events[n]).1 == Report(s, Clock(at), from, m).1 by {
      NextIs(tr, n);
    }
    var o :| o in Take(sv, tr.events[n]).1 && o.msg.PairRoute? && o.msg.slotA == a && o.msg.slotB == b
      && o.msg.route == r;
    TruthOfRoute(t, o);
    LivesOnce(tr, i, n);
  }

  lemma NextIs(tr: Trace, n: nat)
    requires Valid(tr) && n < |tr.events|
    ensures tr.states[n + 1] == Take(tr.states[n], tr.events[n]).0
  {
  }

  lemma TruthOfRoute(t: Session, o: Out)
    requires Truthful(t, o) && o.msg.PairRoute?
    ensures var m := o.msg;
      m.slotA < m.slotB < 4 && t.pairs.At(m.slotA, m.slotB).routeSent && t.pairs.At(m.slotA, m.slotB).route == m.route
  {
  }

  /** Immutability: all the PAIR_ROUTEs sent for one pair in one session's life
      carry the same route, whatever is reported in between. */
  lemma RouteIsImmutable(tr: Trace, i: nat, m: nat, n: nat, a: int, b: int, r: u8, q: u8)
    requires Valid(tr) && m <= n < |tr.events| && Emits(tr, m, i, a, b, r) && Emits(tr, n, i, a, b, q)
    requires Lives(tr, i, m, n)
    ensures q == r
  {
    hide Valid, Emits, Evolves, Grid.At;
    EmittedIsOnRecord(tr, m, i, a, b, r);
    EmittedIsOnRecord(tr, n, i, a, b, q);
    assert Lives(tr, i, m + 1, n + 1);
    LifeEvolves(tr, i, m + 1, n + 1);
    RouteStays(At(tr, m + 1, i), At(tr, n + 1, i), a, b);
  }

  /** Origin: an emitted route is DIRECT exactly when both members' verdicts were
      ok when this session decided the pair. Nothing leaks from an earlier
      session in the same slot. */
  lemma RouteHasOrigin(tr: Trace, n: nat, a: int, b: int, r: u8) returns (i: nat, d: nat)
    requires Valid(tr) && n < |tr.events| && SendsRoute(Take(tr.states[n], tr.events[n]).1, a, b, r)
    ensures 0 <= a < b < 4 && DecidedAt(tr, i, d, n + 1, a, b) && At(tr, d + 1, i).pairs.At(a, b).route == r
  {
    hide SendsRoute, Emits, Take, Grid.At;
    OnlyReportsEmit(tr, n, a, b, r);
    i :| Emits(tr, n, i, a, b, r);
    EmittedIsOnRecord(tr, n, i, a, b, r);
    d := VerdictHasOrigin(tr, i, n + 1, a, b);
  }
}
