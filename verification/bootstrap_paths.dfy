// Where a direct route leads: to an address that answered the client's own probe,
// which is the peer itself except in one case, given exactly.

module BootstrapPaths {
  import opened Basics
  import opened LobbyTypes
  import opened Bootstrap
  import opened BootstrapReceive
  import opened BootstrapAnswers
  import opened BootstrapSeen
  import BootstrapRuns
  import BootstrapSteps
  import BootstrapDispatch
  import R = Rendezvous
  import T = RendezvousTable
  import C = LobbyClient

  // ---------------------------------------------------- one acknowledged peer

  /** g answered e's probe, in the name of slot j of session id. */
  predicate Exchanged(net: set<Packet>, e: Endpoint, g: Endpoint, id: u16, j: Slot, nonce: u32) {
    Packet(g, e, PunchAck(id, j, nonce)) in net && exists k: u8 :: Packet(e, g, Punch(id, k, nonce)) in net
  }

  /** The address that answered for slot j: one of the two on the server's record of the
      peer, and the peer's own unless a joiner without a slot answered for slot 0. */
  predicate Vouches(s: System, id: u16, j: Slot, g: Endpoint) {
    && HasHome(s.server.sessions, id) && g in s.clients && s.clients[g].sessionId == id
    && var p := Home(s.server.sessions, id).peers.At(j);
       && p.used && Recorded(s, p.publicEp, p.privateEp)
       && (g == p.publicEp || (g == p.privateEp && g.port != 0))
       && (g == p.publicEp <==> j != 0 || s.clients[g].isHost)
  }

  lemma NotTheServer(s: System, p: Packet)
    requires Inv(s) && p in s.net && p.msg.PunchAck?
    ensures p.src in s.clients
  {
    hide ClientInv, SessionInv, T.TableInv, StartTrue, ClientSaid;
    assert PacketInv(s, p);
  }

  /** The only peer a nonce belongs to. */
  lemma OneNonce(s: System, e: Endpoint, i: Slot, j: Slot)
    requires Inv(s) && e in s.clients
    requires s.clients[e].peer.At(i).nonce != 0
      && Word(s.clients[e].peer.At(i).nonce) == Word(s.clients[e].peer.At(j).nonce)
    ensures i == j
  {
    InvClient(s, e);
    hide Inv, Placed, RoutesOk, KnownOk, StartedOk, Word, Seated, OtherSeat;
    var c := s.clients[e];
    if c.peer.At(i).nonce != c.peer.At(j).nonce {
      WordsDiffer(c.peer.At(i).nonce, c.peer.At(j).nonce);
    }
  }

  /** Slot 0 of a session is its host's, the others are not. */
  lemma HostSlot(s: System, id: u16, j: Slot)
    requires Inv(s) && HasHome(s.server.sessions, id) && Home(s.server.sessions, id).peers.At(j).used
    ensures var f := Home(s.server.sessions, id).peers.At(j).publicEp;
      f in s.clients && (s.clients[f].isHost <==> j == 0)
  {
    var i := R.FindSession(s.server.sessions, id).value;
    assert SessionInv(s, s.server.sessions[i]);
    hide Inv, StartOk, TalkOk;
  }

  lemma RecordOf(s: System, id: u16, j: Slot)
    requires Seen(s) && HasHome(s.server.sessions, id) && Home(s.server.sessions, id).peers.At(j).used
    ensures var p := Home(s.server.sessions, id).peers.At(j); Recorded(s, p.publicEp, p.privateEp)
  {
    var i := R.FindSession(s.server.sessions, id).value;
    hide BookOk, SpokenTrue;
    assert RecordOk(s, s.server.sessions[i]);
  }

  lemma AckFacts(s: System, e: Endpoint, j: Slot)
    requires Both(s) && e in s.clients && s.clients[e].peer.At(j).acked
    ensures var c := s.clients[e]; Answered(s.net, c, e, j) && c.peer.At(j).chosen in s.clients
    ensures var c := s.clients[e];
      SpokenTrue(s, Packet(c.peer.At(j).chosen, e, PunchAck(c.sessionId, j, Word(c.peer.At(j).nonce))))
  {
    hide Inv, Seen, NotesOk, SpokenTrue, Word;
    BookOf(s, e);
    var c := s.clients[e];
    var a := Packet(c.peer.At(j).chosen, e, PunchAck(c.sessionId, j, Word(c.peer.At(j).nonce)));
    NotTheServer(s, a);
    SpokenOf(s, a);
  }

  lemma SpokenOf(s: System, p: Packet)
    requires Seen(s) && p in s.net
    ensures SpokenTrue(s, p)
  {
    hide BookOk, SpokenTrue, RecordOk;
  }

  lemma AnswerIs(s: System, a: Packet)
    requires a.src in s.clients && SpokenTrue(s, a) && a.msg.PunchAck?
    ensures AnswerTrue(s, s.clients[a.src], a)
  {
  }

  lemma ProbeIs(s: System, q: Packet)
    requires q.src in s.clients && SpokenTrue(s, q) && q.msg.Punch?
    ensures ProbeTrue(s.server.sessions, s.clients[q.src], q)
  {
  }

  /** An acknowledged peer answered a probe of this client's, from the peer's public
      address or the private one it advertised; and it was the peer itself who answered,
      unless the peer is the host and the answer came from a joiner. */
  lemma ChosenAnswered(s: System, e: Endpoint, j: Slot)
    requires Both(s) && e in s.clients && s.clients[e].peer.At(j).acked
    ensures var c := s.clients[e];
      Exchanged(s.net, e, c.peer.At(j).chosen, c.sessionId, j, Word(c.peer.At(j).nonce))
      && Vouches(s, c.sessionId, j, c.peer.At(j).chosen)
  {
    hide Inv, Seen, SpokenTrue, NotesOk, Home, HasHome, Word, Recorded, Quad.At, RecordOk;
    var c := s.clients[e];
    var g, id := c.peer.At(j).chosen, c.sessionId;
    AckFacts(s, e, j);
    var a := Packet(g, e, PunchAck(id, j, Word(c.peer.At(j).nonce)));
    AnswerIs(s, a);
    var q :| q in s.net && Echo(a, q);
    SpokenOf(s, q);
    ProbeIs(s, q);
    var i: Slot :| AimedAt(Home(s.server.sessions, id), c, i, q);
    OneNonce(s, e, i, j);
    assert q == Packet(e, g, Punch(id, q.msg.fromSlot, Word(c.peer.At(j).nonce)));
    HostSlot(s, id, j);
    RecordOf(s, id, j);
  }

  // ----------------------------------------------------------- READY clients

  /** e's direct route to f: an address that answered e's probe in the name of f's slot;
      f itself, or else a joiner at the private endpoint that f, the host, advertised. */
  predicate Path(s: System, e: Endpoint, f: Endpoint, g: Endpoint, j: Slot)
    requires e in s.clients && f in s.clients
  {
    && (exists nonce: u32 :: Exchanged(s.net, e, g, s.clients[e].sessionId, j, nonce))
    && (g == f || Stray(s, f, g))
  }

  predicate Stray(s: System, f: Endpoint, g: Endpoint)
    requires f in s.clients
  {
    && s.clients[f].isHost && s.clients[f].privateEp == g && g.port != 0
    && g in s.clients && !s.clients[g].isHost && s.clients[g].sessionId == s.clients[f].sessionId
  }

  lemma SeatOf(s: System, f: Endpoint, id: u16)
    requires Inv(s) && ReadyIn(s, f, id)
    ensures HasHome(s.server.sessions, id) && s.clients[f].result == Some(C.FillResult(s.clients[f]))
    ensures R.Owns(Home(s.server.sessions, id).peers.At(s.clients[f].localSlot), f)
  {
    hide Inv, AllDecided, C.Params, C.LocalRoutesDecided, T.SessionInv, C.FillResult;
    ReadyFacts(s, f, id);
  }

  lemma DirectIsChosen(s: System, e: Endpoint, j: Slot)
    requires e in s.clients && s.clients[e].result == Some(C.FillResult(s.clients[e]))
    requires s.clients[e].result.value.route.At(j).Direct?
    ensures s.clients[e].result.value.route.At(j).ep == s.clients[e].peer.At(j).chosen
  {
    RouteToAt(s.clients[e], j);
  }

  /** Two READY clients with a direct route to each other. */
  predicate DirectPair(s: System, e: Endpoint, f: Endpoint, id: u16) {
    && ReadyIn(s, e, id) && ReadyIn(s, f, id) && e != f
    && s.clients[e].result.Some? && s.clients[f].result.Some?
    && s.clients[e].result.value.route.At(s.clients[f].result.value.localSlot).Direct?
  }

  /** Where e's direct route to f leads. */
  function Lead(s: System, e: Endpoint, f: Endpoint): Endpoint
    requires e in s.clients && f in s.clients && s.clients[e].result.Some? && s.clients[f].result.Some?
    requires s.clients[e].result.value.route.At(s.clients[f].result.value.localSlot).Direct?
  {
    s.clients[e].result.value.route.At(s.clients[f].result.value.localSlot).ep
  }

  lemma DirectPath(s: System, e: Endpoint, f: Endpoint, id: u16)
    requires Both(s) && DirectPair(s, e, f, id)
    ensures Path(s, e, f, Lead(s, e, f), s.clients[f].localSlot)
    ensures Lead(s, e, f) == f <==> s.clients[f].localSlot != 0 || s.clients[Lead(s, e, f)].isHost
    ensures Lead(s, e, f) in s.clients
  {
    hide Inv, Seen, Agree, C.FillResult, Exchanged, Home, HasHome, Quad.At;
    SeatOf(s, e, id);
    SeatOf(s, f, id);
    ResultSlot(s.clients[f]);
    ReadyAgreement(s, e, f, id);
    var j := s.clients[f].localSlot;
    DirectIsChosen(s, e, j);
    DirectAcked(s, e, f, id);
    ChosenAnswered(s, e, j);
    HostSlot(s, id, j);
    var c := s.clients[e];
    assert Exchanged(s.net, e, c.peer.At(j).chosen, c.sessionId, j, Word(c.peer.At(j).nonce));
  }

  lemma ResultSlot(c: C.Client)
    ensures C.FillResult(c).localSlot == c.localSlot
  {
  }

  lemma DirectAcked(s: System, e: Endpoint, f: Endpoint, id: u16)
    requires DirectPair(s, e, f, id) && Agree(s, e, f)
    ensures s.clients[e].peer.At(s.clients[f].result.value.localSlot).acked
  {
    hide Quad.At;
  }

  // -------------------------------------------------------------------- runs

  lemma InitialSeen(ep: Endpoint, now: u32, seed: bv32)
    ensures Both(Initial(ep, now, seed))
  {
    BootstrapRuns.InitialInv(ep, now, seed);
    hide Inv;
    var s := Initial(ep, now, seed);
    assert forall i :: 0 <= i < |s.server.sessions| ==> s.server.sessions[i].phase == R.Free;
  }

  lemma {:induction false} RunSeen(s: System, steps: seq<Step>)
    requires Both(s) && BootstrapRuns.Runs(s, steps)
    ensures Both(BootstrapRuns.Final(s, steps))
    decreases |steps|
  {
    hide Both, Enabled, Apply;
    if steps != [] {
      ApplySeen(s, steps[0]);
      RunSeen(Apply(s, steps[0]), steps[1..]);
    }
  }

  /** Agreement: in every run from a fresh server, over any interleaving of polls,
      deliveries, losses, duplicates and ticks, two clients that are READY in one
      session hold the same match and the same kind of route to each other. If it is
      direct, each was answered from where its route leads, and that is the other
      client, or a joiner at the private endpoint that the other, the host, advertised. */
  lemma AgreementOverRuns(ep: Endpoint, now: u32, seed: bv32, steps: seq<Step>, e: Endpoint, f: Endpoint, id: u16)
    requires BootstrapRuns.Runs(Initial(ep, now, seed), steps) && e != f
    requires var s := BootstrapRuns.Final(Initial(ep, now, seed), steps); ReadyIn(s, e, id) && ReadyIn(s, f, id)
    ensures var s := BootstrapRuns.Final(Initial(ep, now, seed), steps);
      && s.clients[e].result.Some? && s.clients[f].result.Some? && Agree(s, e, f)
      && (DirectPair(s, e, f, id) ==>
            && DirectPair(s, f, e, id)
            && Path(s, e, f, Lead(s, e, f), s.clients[f].localSlot)
               && Path(s, f, e, Lead(s, f, e), s.clients[e].localSlot))
  {
    hide Inv, Seen, BootstrapRuns.Runs, BootstrapRuns.Final, Path, Agree;
    InitialSeen(ep, now, seed);
    RunSeen(Initial(ep, now, seed), steps);
    var s := BootstrapRuns.Final(Initial(ep, now, seed), steps);
    ReadyAgreement(s, e, f, id);
    if DirectPair(s, e, f, id) {
      DirectBoth(s, e, f, id);
      DirectPath(s, e, f, id);
      DirectPath(s, f, e, id);
    }
  }

  lemma DirectBoth(s: System, e: Endpoint, f: Endpoint, id: u16)
    requires DirectPair(s, e, f, id) && Agree(s, e, f)
    ensures DirectPair(s, f, e, id)
  {
    hide Quad.At;
  }

  // ------------------------------------------------- when it is always the peer

  /** Nobody types the code of a host that advertises his own address as its private
      endpoint. */
  predicate Apart(s: System, step: Step) {
    step.JoinStart? && step.host in s.clients ==> s.clients[step.host].privateEp != step.e || step.e.port == 0
  }

  predicate RunsApart(s: System, steps: seq<Step>)
    requires BootstrapRuns.Runs(s, steps)
    decreases |steps|
  {
    steps != [] ==> Apart(s, steps[0]) && RunsApart(Apply(s, steps[0]), steps[1..])
  }

  /** No joiner sits at the private endpoint on its host's record. */
  predicate Clear(s: System) {
    forall g :: g in s.clients && !s.clients[g].isHost && HasHome(s.server.sessions, s.clients[g].sessionId) ==>
      ClearOf(Home(s.server.sessions, s.clients[g].sessionId), g)
  }

  predicate ClearOf(h: R.Session, g: Endpoint) {
    h.peers.At(0).privateEp != g || g.port == 0
  }

  lemma JoinerHas(s: System, g: Endpoint)
    requires Inv(s) && g in s.clients && !s.clients[g].isHost
    ensures HasHome(s.server.sessions, s.clients[g].sessionId) && s.clients[g].sessionId != 0
    ensures Home(s.server.sessions, s.clients[g].sessionId).peers.At(0).used
  {
    InvClient(s, g);
    HomeFacts(s, g);
    hide Inv, ProbesOk, RoutesOk, KnownOk, StartedOk, Seated, Home, HasHome, StartOk, TalkOk, T.SessionInv;
  }

  lemma ClearKept(s: System, t: System, g: Endpoint)
    requires Clear(s) && Inv(s) && g in s.clients && g in t.clients && Steady(s.clients[g], t.clients[g])
    requires HomesKept(s.server.sessions, t.server.sessions) && !t.clients[g].isHost
    ensures ClearOf(Home(t.server.sessions, t.clients[g].sessionId), g)
  {
    JoinerHas(s, g);
    hide Inv, Home, HasHome, Quad.At;
  }

  /** The newcomer's host is the one whose code it typed. */
  lemma NewcomerClear(s: System, step: Step)
    requires Both(s) && step.JoinStart? && Enabled(s, step) && Apart(s, step) && |s.server.rate| == R.RATE_BUCKETS
    ensures var t := Apply(s, step);
      step.e in t.clients && t.server == s.server
        && ClearOf(Home(t.server.sessions, t.clients[step.e].sessionId), step.e)
  {
    hide Inv, Seen, BootstrapSteps.LobbyCode.Decode, BootstrapSteps.LobbyCode.Encode, Home, HasHome, After, Quad.At;
    var host := step.host;
    BootstrapSteps.NoEmptyCode();
    if s.clients[host].sessionId == 0 {
      BootstrapSteps.UnknownCode(s, host);
      assert false;
    }
    var id := s.clients[host].sessionId;
    BootstrapSteps.CodeHost(s, host);
    BootstrapSteps.LobbyCode.CodeRoundTrip(s.ep, id);
    var r := C.JoinBegin(step.now, step.rng, step.privateEp, step.netVersion, s.clients[host].code).value;
    assert r.0.sessionId == id;
    HostUsed(s, id);
    RecordOf(s, id, 0);
    AfterNew(s, step.e, r.0, r.1);
  }

  lemma AfterNew(s: System, e: Endpoint, d: C.Client, out: seq<Out>)
    ensures var t := After(s, e, d, out); e in t.clients && t.clients[e] == d && t.server == s.server
    ensures forall f :: f in After(s, e, d, out).clients ==> f in s.clients || f == e
  {
    hide Sent;
  }

  lemma HostUsed(s: System, id: u16)
    requires Inv(s) && HasHome(s.server.sessions, id)
    ensures Home(s.server.sessions, id).peers.At(0).used
  {
    var i := R.FindSession(s.server.sessions, id).value;
    assert SessionInv(s, s.server.sessions[i]);
    hide Inv, StartOk, TalkOk;
  }

  /** Only the begin steps add a client. */
  lemma WhoIsThere(s: System, step: Step)
    requires Enabled(s, step) && |s.server.rate| == R.RATE_BUCKETS
    ensures forall f :: f in Apply(s, step).clients ==>
      f in s.clients || ((step.HostStart? || step.JoinStart?) && f == step.e)
    ensures step.HostStart? ==> Apply(s, step).clients[step.e].isHost
    ensures !step.ServerReceive? && !step.ServerTick? ==> Apply(s, step).server == s.server
  {
    hide C.Poll, C.PostReceive, C.SetForcedRelay, C.JoinBegin, R.Handle, R.Tick, Sent;
  }

  lemma ServerHomes(s: System, step: Step)
    requires Inv(s) && Enabled(s, step) && |s.server.rate| == R.RATE_BUCKETS
    ensures HomesKept(s.server.sessions, Apply(s, step).server.sessions)
  {
    hide Inv, HomesKept, C.Poll, C.PostReceive, C.SetForcedRelay, C.JoinBegin, C.HostBegin, R.Handle, R.Tick,
      T.TableInv, T.Advances, T.Vouched, Sent, BootstrapRuns.NoneExpired;
    BootstrapDispatch.TableOf(s);
    var t := Apply(s, step);
    match step {
      case ServerReceive(now, from, msg) => T.HandleKeeps(s.server, now, from, msg);
      case ServerTick(now) =>
        assert BootstrapRuns.NoneExpired(s.server.sessions, now) by { NoneIs(s, now); }
        BootstrapRuns.TickStill(s, now);
      case _ => T.AdvancesRefl(s.server.sessions);
    }
    AllHomes(s.server.sessions, t.server.sessions);
  }

  lemma NoneIs(s: System, now: u32)
    requires forall i :: 0 <= i < |s.server.sessions| ==> !R.Expired(s.server.sessions[i], now)
    ensures BootstrapRuns.NoneExpired(s.server.sessions, now)
  {
  }

  lemma ApplyClear(s: System, step: Step)
    requires Both(s) && Clear(s) && |s.server.rate| == R.RATE_BUCKETS && Enabled(s, step) && Apart(s, step)
    ensures Clear(Apply(s, step))
  {
    hide Inv, Seen, Enabled, Apart, Apply, Steady, HomesKept, Home, HasHome, ClearOf;
    ApplySeen(s, step);
    WhoIsThere(s, step);
    ServerHomes(s, step);
    var t := Apply(s, step);
    forall g | g in t.clients && !t.clients[g].isHost && HasHome(t.server.sessions, t.clients[g].sessionId)
      ensures ClearOf(Home(t.server.sessions, t.clients[g].sessionId), g)
    {
      if g in s.clients {
        ClearStep(s, t, g);
      } else {
        NewcomerClear(s, step);
      }
    }
  }

  lemma ClearStep(s: System, t: System, g: Endpoint)
    requires Clear(s) && Inv(s) && Grown(s, t) && g in s.clients && g in t.clients && !t.clients[g].isHost
    requires HomesKept(s.server.sessions, t.server.sessions)
    ensures ClearOf(Home(t.server.sessions, t.clients[g].sessionId), g)
  {
    hide Inv, Clear, HomesKept, Steady, Home, ClearOf;
    ClearKept(s, t, g);
  }

  lemma {:induction false} RunClear(s: System, steps: seq<Step>)
    requires Both(s) && Clear(s) && BootstrapRuns.Runs(s, steps) && RunsApart(s, steps)
    ensures Both(BootstrapRuns.Final(s, steps)) && Clear(BootstrapRuns.Final(s, steps))
    decreases |steps|
  {
    hide Both, Clear, Enabled, Apply, Apart;
    if steps != [] {
      ApplySeen(s, steps[0]);
      ApplyClear(s, steps[0]);
      RunClear(Apply(s, steps[0]), steps[1..]);
    }
  }

  lemma NoStray(s: System, f: Endpoint, g: Endpoint, id: u16)
    requires Both(s) && Clear(s) && ReadyIn(s, f, id)
    ensures !Stray(s, f, g)
  {
    if Stray(s, f, g) {
      hide Inv, Seen, Home, HasHome, Quad.At;
      JoinerHas(s, g);
      SeatOf(s, f, id);
      OwnHost(s, f, id);
      RecordOf(s, id, 0);
      assert false;
    }
  }

  lemma OwnHost(s: System, f: Endpoint, id: u16)
    requires Inv(s) && f in s.clients && s.clients[f].isHost && s.clients[f].sessionId == id != 0
    ensures HasHome(s.server.sessions, id) && R.Owns(Home(s.server.sessions, id).peers.At(0), f)
  {
    InvClient(s, f);
    hide Inv, ProbesOk, RoutesOk, KnownOk, StartedOk, Home, HasHome;
  }

  /** If nobody joins a host that advertises the joiner's own address, every direct route
      of two READY clients leads to the other client. */
  lemma DirectReachesPeer(ep: Endpoint, now: u32, seed: bv32, steps: seq<Step>, e: Endpoint, f: Endpoint, id: u16)
    requires BootstrapRuns.Runs(Initial(ep, now, seed), steps) && RunsApart(Initial(ep, now, seed), steps)
    requires DirectPair(BootstrapRuns.Final(Initial(ep, now, seed), steps), e, f, id)
    ensures var s := BootstrapRuns.Final(Initial(ep, now, seed), steps);
      DirectPair(s, f, e, id) && Lead(s, e, f) == f && Lead(s, f, e) == e
  {
    hide Inv, Seen, BootstrapRuns.Runs, BootstrapRuns.Final, RunsApart, Clear, Agree;
    InitialSeen(ep, now, seed);
    assert Clear(Initial(ep, now, seed)) by { InitialClear(ep, now, seed); }
    RunClear(Initial(ep, now, seed), steps);
    var s := BootstrapRuns.Final(Initial(ep, now, seed), steps);
    ReadyAgreement(s, e, f, id);
    DirectBoth(s, e, f, id);
    DirectPath(s, e, f, id);
    DirectPath(s, f, e, id);
    NoStray(s, f, Lead(s, e, f), id);
    NoStray(s, e, Lead(s, f, e), id);
  }

  lemma InitialClear(ep: Endpoint, now: u32, seed: bv32)
    ensures Clear(Initial(ep, now, seed))
  {
  }
}
