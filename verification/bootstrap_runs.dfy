// Every step of the bootstrap keeps the invariant; runs from a fresh server.

module BootstrapRuns {
  import opened Basics
  import opened LobbyTypes
  import opened Bootstrap
  import opened BootstrapServer
  import opened BootstrapDispatch
  import opened BootstrapHandle
  import opened BootstrapPoll
  import opened BootstrapSteps
  import R = Rendezvous
  import T = RendezvousTable
  import K = RendezvousTick
  import C = LobbyClient

  // ---------------------------------------------------------- server steps

  lemma DispatchedHolds(s: System, sv: R.Server, now: u32, from: Endpoint, m: Msg)
    requires Inv(s) && sv.sessions == s.server.sessions && Packet(from, s.ep, m) in s.net
    ensures Dispatched(s, sv, from, m, R.Dispatch(sv, now, from, m))
  {
    hide Inv, T.TableInv, T.Advances, R.Dispatch, T.Vouched, StillDecided;
    TableOf(s);
    T.DispatchKeeps(sv, now, from, m);
    StillDecidedHolds(s, R.Dispatch(sv, now, from, m).0.sessions);
  }

  /** With every session in order, the whole step is. */
  lemma TidyIsGood(s: System, r: (R.Server, seq<Out>))
    requires T.TableInv(r.0.sessions) && T.Advances(s.server.sessions, r.0.sessions) && |r.0.rate| == R.RATE_BUCKETS
    requires (forall o :: o in r.1 ==> T.Vouched(r.0.sessions, o)) && Tidy(s, r)
    ensures ServerGood(s, r)
  {
    hide T.TableInv, T.Advances, T.Vouched, SessionInv, StartTrue;
  }

  lemma ReceiveKeeps(s: System, now: u32, from: Endpoint, m: Msg)
    requires Inv(s) && |s.server.rate| == R.RATE_BUCKETS && Packet(from, s.ep, m) in s.net
    ensures Inv(ServerAfter(s, R.Handle(s.server, now, from, m)))
  {
    hide Inv, T.TableInv, T.Advances, R.Dispatch, R.RateTake, T.Vouched, Tidy, ServerGood, Dispatched, ServerAfter;
    TableOf(s);
    var r := R.Handle(s.server, now, from, m);
    T.HandleKeeps(s.server, now, from, m);
    if m.Relay? {
      DispatchedHolds(s, s.server, now, from, m);
      DispatchTidy(s, s.server, now, from, m);
    } else {
      var k := from.ip % R.RATE_BUCKETS;
      var (b, ok) := R.RateTake(s.server.rate[k], now);
      var sv := s.server.(rate := s.server.rate[k := b]);
      if ok {
        DispatchedHolds(s, sv, now, from, m);
        DispatchTidy(s, sv, now, from, m);
      } else {
        T.AdvancesRefl(s.server.sessions);
        StillDecidedHolds(s, s.server.sessions);
        NoneChanged(s, r);
      }
    }
    TidyIsGood(s, r);
    ServerKeeps(s, r);
  }

  // ---------------------------------------------------------------- the tick

  lemma RefanSession(s: System, t: System, h: R.Session, now: u32)
    requires SessionInv(s, h) && T.SessionInv(h) && t.clients == s.clients && StillDecided(s, t.server.sessions)
    requires !R.Expired(h, now)
    ensures var (k, out) := R.TickSession(h, now);
      && SessionInv(t, k) && k.phase == h.phase && (h.phase != R.Free ==> T.Evolves(h, k))
      && T.AllTruthful(k, out) && (out != [] ==> k.phase != R.Free)
      && forall o :: o in out ==> k.start.Some? && o.msg == Start(k.start.value)
  {
    var (k, out) := R.TickSession(h, now);
    hide R.HasRelay, R.FanStart, StillDecided, T.CellsOk, T.PeersOk;
    if h.phase != R.Free {
      K.RefanKeeps(h, now);
      hide SessionInv, T.Evolves, T.AllTruthful;
      RestampPeople(h, k.lastRefan);
      MildInv(s, t, h, k);
    }
  }

  lemma RestampPeople(h: R.Session, stamp: u32)
    requires h.phase != R.Free
    ensures SamePeople(h, h.(lastRefan := stamp))
  {
  }

  predicate NoneExpired(ss: seq<R.Session>, now: u32) {
    forall i :: 0 <= i < |ss| ==> !R.Expired(ss[i], now)
  }

  /** Without reaping, a tick only restamps sessions. */
  lemma TickStill(s: System, now: u32)
    requires T.TableInv(s.server.sessions) && NoneExpired(s.server.sessions, now)
    ensures var tt := R.Tick(s.server, now).0.sessions;
      T.TableInv(tt) && T.Advances(s.server.sessions, tt)
      && forall j :: 0 <= j < |tt| ==> tt[j] == R.TickSession(s.server.sessions[j], now).0
  {
    K.TickKeeps(s.server, now);
    K.TickFromIs(s.server, now, 0);
    var tt := R.Tick(s.server, now).0.sessions;
    hide T.TableInv, R.Expired, R.TickSession, R.Tick, R.TickFrom;
    forall j | 0 <= j < |tt| && s.server.sessions[j].phase != R.Free ensures T.Evolves(s.server.sessions[j], tt[j]) {
      RestampEvolves(s.server.sessions[j], tt[j].lastRefan);
    }
  }

  lemma RestampEvolves(h: R.Session, stamp: u32)
    requires h.phase != R.Free
    ensures T.Evolves(h, h.(lastRefan := stamp))
  {
  }

  lemma TickTidy(s: System, now: u32)
    requires Inv(s) && NoneExpired(s.server.sessions, now)
    ensures ServerGood(s, R.Tick(s.server, now))
  {
    hide Inv, T.TableInv, T.Advances, R.TickSession, R.TickFrom, R.Tick, StillDecided, SessionInv, T.SessionInv,
      T.Vouched, T.AllTruthful, StartTrue, R.Expired;
    TableOf(s);
    TickStill(s, now);
    var ss := s.server.sessions;
    var r := R.Tick(s.server, now);
    var t := ServerAfter(s, r);
    StillDecidedHolds(s, r.0.sessions);
    K.TickKeeps(s.server, now);
    forall i | 0 <= i < |r.0.sessions| ensures SessionInv(t, r.0.sessions[i]) {
      RefanSession(s, t, ss[i], now);
    }
    forall o | o in r.1 ensures T.Vouched(r.0.sessions, o) && (o.msg.Start? ==> StartTrue(t, o.to, o.msg.params)) {
      TickSaid(s, now, o);
    }
  }

  lemma TickSaid(s: System, now: u32, o: Out)
    requires Inv(s) && NoneExpired(s.server.sessions, now) && o in R.Tick(s.server, now).1
    ensures var r := R.Tick(s.server, now);
      T.Vouched(r.0.sessions, o) && (o.msg.Start? ==> StartTrue(ServerAfter(s, r), o.to, o.msg.params))
  {
    hide Inv, T.TableInv, T.Advances, R.TickSession, R.TickFrom, StillDecided, SessionInv, T.SessionInv, T.Vouched,
      StartTrue, R.Expired, T.Truthful, Sent, T.Evolves;
    TableOf(s);
    TickStill(s, now);
    var r := R.Tick(s.server, now);
    StillDecidedHolds(s, r.0.sessions);
    K.TickFromIs(s.server, now, 0);
    var j: nat :| K.TickOutput(s.server.sessions, now, j, o);
    RefanSession(s, ServerAfter(s, r), s.server.sessions[j], now);
    TruthVouched(r.0.sessions, j, o);
    OneStart(s, r, j, o);
  }

  lemma TruthVouched(tt: seq<R.Session>, j: nat, o: Out)
    requires j < |tt| && tt[j].phase != R.Free && (o.msg.Reject? || T.Truthful(tt[j], o))
    ensures T.Vouched(tt, o)
  {
    hide T.Truthful;
  }

  lemma OneStart(s: System, r: (R.Server, seq<Out>), j: nat, o: Out)
    requires j < |r.0.sessions| && SessionInv(ServerAfter(s, r), r.0.sessions[j]) && r.0.sessions[j].phase != R.Free
    requires o.msg.Reject? || T.Truthful(r.0.sessions[j], o)
    requires r.0.sessions[j].start.Some? && o.msg == Start(r.0.sessions[j].start.value)
    ensures o.msg.Start? ==> StartTrue(ServerAfter(s, r), o.to, o.msg.params)
  {
    hide SessionInv;
    StartsTrue(s, r, j, [o]);
    assert o in [o];
  }

  // ------------------------------------------------------------------ runs

  lemma TickKeepsInv(s: System, now: u32)
    requires Inv(s) && NoneExpired(s.server.sessions, now)
    ensures Inv(ServerAfter(s, R.Tick(s.server, now)))
  {
    hide Inv, ServerGood, NoneExpired, R.Tick;
    TickTidy(s, now);
    ServerKeeps(s, R.Tick(s.server, now));
  }

  /** Every enabled step keeps the invariant. */
  lemma ApplyKeeps(s: System, step: Step)
    requires Inv(s) && |s.server.rate| == R.RATE_BUCKETS && Enabled(s, step)
    ensures Inv(Apply(s, step)) && |Apply(s, step).server.rate| == R.RATE_BUCKETS
  {
    hide Inv, R.Handle, R.Tick, C.Poll, C.PostReceive, C.HostBegin, C.JoinBegin, C.SetForcedRelay, After, ServerAfter;
    match step {
      case HostStart(_, _, _, _, _, _) => HostStartKeeps(s, step);
      case JoinStart(_, _, _, _, _, _) => JoinStartKeeps(s, step);
      case ForceRelay(e) => ForceKeeps(s, e);
      case ClientPoll(e, now, inbox) => PollKeeps(s, e, now, inbox);
      case ClientPost(e, from, msg) => PostKeeps(s, e, from, msg);
      case GameSend(e, to, msg) => GameSendKeeps(s, e, Out(to, msg));
      case ServerReceive(now, from, msg) => ReceiveKeeps(s, now, from, msg);
      case ServerTick(now) => TickKeepsInv(s, now);
    }
    TableOf(Apply(s, step));
  }

  /** Every step of the run is enabled where it is taken. */
  predicate Runs(s: System, steps: seq<Step>)
    decreases |steps|
  {
    |s.server.rate| == R.RATE_BUCKETS
    && (steps != [] ==> Enabled(s, steps[0]) && Runs(Apply(s, steps[0]), steps[1..]))
  }

  function Final(s: System, steps: seq<Step>): System
    requires Runs(s, steps)
    decreases |steps|
  {
    if steps == [] then s else Final(Apply(s, steps[0]), steps[1..])
  }

  lemma InitialInv(ep: Endpoint, now: u32, seed: bv32)
    ensures Inv(Initial(ep, now, seed)) && |Initial(ep, now, seed).server.rate| == R.RATE_BUCKETS
  {
    hide ClientInv, SessionInv, PacketInv;
    var s := Initial(ep, now, seed);
    assert forall i :: 0 <= i < |s.server.sessions| ==> s.server.sessions[i] == R.CLEARED;
    assert forall i :: 0 <= i < |s.server.sessions| ==> SessionInv(s, s.server.sessions[i]) by {
      forall i | 0 <= i < |s.server.sessions| ensures SessionInv(s, s.server.sessions[i]) {
        ClearedInv(s);
      }
    }
  }

  lemma ClearedInv(s: System)
    ensures SessionInv(s, R.CLEARED)
  {
  }
}
