// One bootstrap from a fresh server to two READY clients, step by step, in which the
// joiner's direct route leads to a bystander: the host advertises as its private
// endpoint an address from which somebody else has typed the same code.

module BootstrapStray {
  import opened Basics
  import opened LobbyTypes
  import opened Bootstrap
  import opened BootstrapRuns
  import opened BootstrapPaths
  import R = Rendezvous
  import C = LobbyClient
  import RendezvousClock
  import LobbyCode
  import XorShift

  /** Server, host, joiner and bystander; the match; the server's generator. */
  datatype Cast = Cast(ep: Endpoint, h: Endpoint, a: Endpoint, b: Endpoint, seed: u32, arena: u8, delay: u8,
                       version: u32, draw: bv32, rngH: bv32, rngA: bv32)

  function Draw(k: Cast): bv32 {
    XorShift.Next(if k.draw == 0 then 1 else k.draw)
  }

  function Id(k: Cast): u16 {
    R.Candidate(Draw(k))
  }

  predicate Fit(k: Cast) {
    && k.ep != k.h && k.ep != k.a && k.ep != k.b && k.h != k.a && k.h != k.b && k.a != k.b
    && k.a.port != 0 && k.b.port != 0 && Id(k) != 0
  }

  function Match(k: Cast): StartParams {
    StartParams(k.seed, k.arena, 2, k.delay)
  }

  // ------------------------------------------------------------- the clients

  function Host0(k: Cast): C.Client {
    C.HostBegin(0, k.rngH, k.ep, k.b, k.version, Match(k)).value.0
  }

  function Host1(k: Cast): C.Client {
    Host0(k).(stage := C.WaitingPeers, sessionId := Id(k), code := LobbyCode.Encode(k.ep, Id(k)),
              peer := Quad(C.NO_PEER.(present := true), C.NO_PEER, C.NO_PEER, C.NO_PEER))
  }

  /** The first nonce a client draws. */
  function Nonce(rng: bv32): bv32 {
    XorShift.Next(if rng != 0 then rng else 1)
  }

  /** A peer just met, with the probe clock ready to fire. */
  function Met(pub: Endpoint, priv: Endpoint, nonce: bv32): C.Peer {
    C.NO_PEER.(present := true, pub := pub, priv := priv, nonce := nonce, lastPunch := Elapsed(0, C.PUNCH_PERIOD_MS))
  }

  function Host2(k: Cast): C.Client {
    Host1(k).(stage := C.Punching, rng := Nonce(k.rngH),
              peer := Quad(C.NO_PEER.(present := true), Met(k.a, k.a, Nonce(k.rngH)), C.NO_PEER, C.NO_PEER))
  }

  function Probed(p: C.Peer): C.Peer {
    p.(lastPunch := 0, punchAlt := true)
  }

  function Acked(p: C.Peer, from: Endpoint): C.Peer {
    p.(acked := true, chosen := from, reported := true, lastReport := 0)
  }

  function Host3(k: Cast): C.Client {
    Host2(k).(peer := Host2(k).peer.With(1, Probed(Met(k.a, k.a, Nonce(k.rngH)))))
  }

  function Host4(k: Cast): C.Client {
    Host2(k).(peer := Host2(k).peer.With(1, Acked(Probed(Met(k.a, k.a, Nonce(k.rngH))), k.a)))
  }

  function Host5(k: Cast): C.Client {
    Host4(k).(known := C.NOTHING_KNOWN.Mark(0, 1).Mark(1, 0), stage := C.AwaitingStart, hostStartSent := true,
              peer := Host4(k).peer.With(1, Host4(k).peer.At(1).(route := 0)))
  }

  function Host6(k: Cast): C.Client {
    var c := Host5(k).(startSeen := true);
    c.(stage := C.Ready, result := Some(C.FillResult(c)))
  }

  function Join0(k: Cast, e: Endpoint): C.Client {
    C.Blank(0, k.rngA, k.ep, e, k.version).(sessionId := Id(k), stage := C.Joining)
  }

  function Join1(k: Cast): C.Client {
    Join0(k, k.a).(stage := C.Punching, localSlot := 1, numPlayers := 2, rng := Nonce(k.rngA),
                   peer := Quad(Met(k.h, k.b, Nonce(k.rngA)), C.NO_PEER.(present := true), C.NO_PEER, C.NO_PEER))
  }

  function Join2(k: Cast): C.Client {
    Join1(k).(peer := Join1(k).peer.With(0, Probed(Met(k.h, k.b, Nonce(k.rngA)))))
  }

  /** Acknowledged by the bystander. */
  function Join3(k: Cast): C.Client {
    Join1(k).(peer := Join1(k).peer.With(0, Acked(Probed(Met(k.h, k.b, Nonce(k.rngA))), k.b)))
  }

  /** The mesh decided and the match taken over. */
  function Settled(k: Cast): C.Client {
    Join3(k).(known := C.NOTHING_KNOWN.Mark(0, 1).Mark(1, 0), startSeen := true,
              seed := k.seed, arenaId := k.arena, inputDelay := k.delay,
              peer := Join3(k).peer.With(0, Join3(k).peer.At(0).(route := 0)))
  }

  function Join4(k: Cast): C.Client {
    Settled(k).(stage := C.Ready, result := Some(C.FillResult(Settled(k))))
  }

  // --------------------------------------------------------------- their polls

  predicate Young(c: C.Client) {
    c.beginMs == 0 && C.Active(c)
  }

  lemma PollNone(c: C.Client)
    requires Young(c)
    ensures C.Poll(c, 0, []) == C.Duties(c, 0)
  {
    hide C.Duties;
    assert C.Drain(c, 0, []) == (c, []);
    assert [] + C.Duties(c, 0).1 == C.Duties(c, 0).1;
  }

  lemma PollOne(c: C.Client, m: C.In)
    requires Young(c)
    ensures var r := C.Receive(c, 0, m.from, m.msg);
      r.0.stage != C.Failed ==> C.Poll(c, 0, [m]) == (C.Duties(r.0, 0).0, r.1 + C.Duties(r.0, 0).1)
  {
    hide C.Duties, C.Receive;
    var r := C.Receive(c, 0, m.from, m.msg);
    var inbox := [m];
    assert inbox[1..] == [];
    assert C.Drain(r.0, 0, []) == (r.0, []);
    assert C.Drain(c, 0, inbox) == (r.0, r.1 + []);
    assert r.1 + [] == r.1;
  }

  lemma PollTwo(c: C.Client, m: C.In, n: C.In)
    requires Young(c)
    ensures var r := C.Receive(c, 0, m.from, m.msg);
      var q := C.Receive(r.0, 0, n.from, n.msg);
      r.0.stage != C.Failed && q.0.stage != C.Failed ==>
        C.Poll(c, 0, [m, n]) == (C.Duties(q.0, 0).0, r.1 + q.1 + C.Duties(q.0, 0).1)
  {
    hide C.Duties, C.Receive;
    var r := C.Receive(c, 0, m.from, m.msg);
    var q := C.Receive(r.0, 0, n.from, n.msg);
    var inbox, rest := [m, n], [n];
    assert inbox[1..] == rest && rest[1..] == [];
    assert C.Drain(q.0, 0, []) == (q.0, []);
    assert C.Drain(r.0, 0, rest) == if r.0.stage == C.Failed then (r.0, []) else (q.0, q.1 + []);
    assert q.1 + [] == q.1;
    assert C.Drain(c, 0, inbox) == (C.Drain(r.0, 0, rest).0, r.1 + C.Drain(r.0, 0, rest).1);
  }

  // ------------------------------------------------------- duties at time zero

  /** Neither START, completion nor keepalive is due. */
  predicate Calm(d: C.Client) {
    && d.lastKeepalive == 0 && d.stage != C.Failed
    && (!d.isHost || d.startSeen || !C.AllPairsDecided(d))
    && ((d.stage != C.Punching && d.stage != C.AwaitingStart) || !C.LocalRoutesDecided(d))
  }

  lemma CalmDuties(c: C.Client, d: C.Client, out: seq<Out>)
    requires c.beginMs == 0 && C.StageDuty(c, 0) == (d, out) && Calm(d)
    ensures C.Duties(c, 0) == (d, out)
  {
    hide C.StageDuty, C.AllPairsDecided, C.LocalRoutesDecided, C.Params;
    assert C.HostDuty(d, 0) == (d, []);
    assert C.Finish(d) == d;
    assert C.KeepDuty(d, 0) == (d, []);
    assert out + [] + [] == out;
  }

  lemma WaitStill(c: C.Client)
    requires (c.stage == C.WaitingPeers && !C.AllPeersPresent(c)) || c.stage == C.Joining
    requires c.lastSend == 0
    ensures C.StageDuty(c, 0) == (c, [])
  {
    hide C.AllPeersPresent;
  }

  lemma WaitEnds(c: C.Client, d: C.Client)
    requires c.stage == C.WaitingPeers && C.AllPeersPresent(c) && d == C.EnterPunching(c, 0)
    ensures C.StageDuty(c, 0) == (d, [])
  {
    hide C.AllPeersPresent, C.EnterPunching;
  }

  /** A mesh of two: only the other slot is there to probe. */
  lemma PunchPair(c: C.Client, i: Slot)
    requires c.stage == C.Punching && c.numPlayers == 2 && i < 2 && c.localSlot == 1 - i
    ensures C.StageDuty(c, 0) == C.PunchPeer(c, 0, i)
  {
    var r := C.PunchPeer(c, 0, i);
    PunchKeeps(c, i);
    hide C.PunchPeer;
    OwnSlot(c);
    OwnSlot(r.0);
    assert C.PunchFrom(r.0, 0, 2) == (r.0, []) && C.PunchFrom(c, 0, 2) == (c, []);
    var none: seq<Out> := [];
    assert none + none == none && none + r.1 == r.1 && r.1 + none == r.1;
    if i == 0 {
      assert C.PunchFrom(r.0, 0, 1) == (r.0, none);
      assert C.PunchFrom(c, 0, 0) == (r.0, r.1 + none);
    } else {
      assert C.PunchFrom(c, 0, 1) == (r.0, r.1 + none);
      assert C.PunchFrom(c, 0, 0) == (r.0, none + r.1);
    }
  }

  lemma OwnSlot(c: C.Client)
    ensures C.PunchPeer(c, 0, c.localSlot) == (c, [])
  {
  }

  lemma PunchKeeps(c: C.Client, i: Slot)
    ensures var d := C.PunchPeer(c, 0, i).0; d.numPlayers == c.numPlayers && d.localSlot == c.localSlot
  {
    hide Quad.With, Quad.At, C.ProbeTarget;
  }

  /** The probe clock is ready, and the private address comes first. */
  lemma FirstProbe(c: C.Client, i: Slot, pub: Endpoint, priv: Endpoint, nonce: bv32)
    requires i != c.localSlot && !c.forcedRelay && priv.port != 0 && c.peer.At(i) == Met(pub, priv, nonce)
    ensures C.PunchPeer(c, 0, i) ==
      (c.(peer := c.peer.With(i, Probed(c.peer.At(i)))), [Out(priv, Punch(c.sessionId, c.localSlot, Word(nonce)))])
  {
    hide Quad.With, Quad.At, Word;
  }

  lemma Reported(c: C.Client, i: Slot)
    requires c.peer.At(i).route >= 0 || (c.peer.At(i).reported && c.peer.At(i).lastReport == 0)
    ensures C.PunchPeer(c, 0, i) == (c, [])
  {
    hide Quad.With, Quad.At;
  }

  lemma WithSame<T>(q: Quad<T>, i: Slot)
    ensures q.With(i, q.At(i)) == q
  {
  }

  /** Entering PUNCHING in the very moment of the introduction resets nothing. */
  lemma AimPair(m: C.Client, i: Slot)
    requires m.numPlayers == 2 && i < 2 && m.localSlot == 1 - i && C.Aim(m.peer.At(i), 0) == m.peer.At(i)
    ensures C.EnterPunching(m, 0) == m.(stage := C.Punching)
  {
    var d := m.(stage := C.Punching);
    WithSame(d.peer, i);
    hide C.Aim, Quad.With, Quad.At;
    assert C.AimFrom(d, 0, 2) == d;
    assert C.AimFrom(d, 0, 1) == d;
  }

  lemma MeetSlot(c: C.Client, i: Slot, pub: Endpoint, priv: Endpoint)
    requires 1 <= C.Order(c.stage) <= 5 && i != c.localSlot && c.peer.At(i) == C.NO_PEER
    ensures C.OnPeerIntro(c, 0, i, pub, priv) == c.(rng := Nonce(c.rng),
      peer := c.peer.With(i, Met(pub, priv, Nonce(c.rng))))
  {
    hide XorShift.Next, Quad.With, Quad.At;
  }

  // -------------------------------------------------------- the host's polls

  lemma HostHears(k: Cast)
    requires Fit(k)
    ensures C.Poll(Host0(k), 0, [C.In(k.ep, HostResp(Id(k)))]) == (Host1(k), [])
  {
    hide LobbyCode.Encode, XorShift.Next, R.Candidate;
    PollOne(Host0(k), C.In(k.ep, HostResp(Id(k))));
    var c := Host1(k);
    assert C.Receive(Host0(k), 0, k.ep, HostResp(Id(k))) == (c, []);
    assert !C.AllPeersPresent(c) by { assert !c.peer.At(1).present; }
    assert !C.AllPairsDecided(c) by { assert !c.known.At(0, 1); }
    WaitStill(c);
    CalmDuties(c, c, []);
  }

  lemma HostMeets(k: Cast)
    requires Fit(k)
    ensures C.Poll(Host1(k), 0, [C.In(k.ep, PeerIntro(1, k.a, k.a))]) == (Host2(k), [])
  {
    hide LobbyCode.Encode, XorShift.Next, R.Candidate;
    var c, d := Host1(k), Host2(k);
    PollOne(c, C.In(k.ep, PeerIntro(1, k.a, k.a)));
    var m := d.(stage := C.WaitingPeers);
    MeetSlot(c, 1, k.a, k.a);
    assert m.peer == c.peer.With(1, Met(k.a, k.a, Nonce(k.rngH)));
    assert C.AllPeersPresent(m);
    hide Quad.With;
    AimPair(m, 1);
    assert !C.AllPairsDecided(d) by { assert !d.known.At(0, 1); }
    assert !C.LocalRoutesDecided(d) by { assert d.peer.At(1).route < 0; }
    WaitEnds(m, d);
    CalmDuties(m, d, []);
  }

  lemma HostProbes(k: Cast)
    requires Fit(k)
    ensures C.Poll(Host2(k), 0, []) == (Host3(k), [Out(k.a, Punch(Id(k), 0, Word(Nonce(k.rngH))))])
  {
    hide LobbyCode.Encode, XorShift.Next, R.Candidate, Word;
    var c, d := Host2(k), Host3(k);
    PollNone(c);
    PunchPair(c, 1);
    FirstProbe(c, 1, k.a, k.a, Nonce(k.rngH));
    assert !C.AllPairsDecided(d) by { assert !d.known.At(0, 1); }
    assert !C.LocalRoutesDecided(d) by { assert d.peer.At(1).route < 0; }
    CalmDuties(c, d, [Out(k.a, Punch(Id(k), 0, Word(Nonce(k.rngH))))]);
  }

  lemma AckSlot(c: C.Client, i: Slot, from: Endpoint)
    requires i != c.localSlot && c.sessionId != 0
    requires c.peer.At(i).present && c.peer.At(i).nonce != 0 && !c.peer.At(i).acked
    ensures C.OnPunchAck(c, 0, from, c.sessionId, i, Word(c.peer.At(i).nonce)) ==
      (c.(peer := c.peer.With(i, Acked(c.peer.At(i), from))), [C.ReportOf(c, i, 1)])
  {
    hide Quad.With, Quad.At, Word, C.ReportOf;
  }

  lemma NonceSet(rng: bv32)
    ensures Nonce(rng) != 0
  {
    hide XorShift.Next;
    XorShift.NoShortCycle(if rng != 0 then rng else 1);
  }

  lemma HostIsAcked(k: Cast)
    requires Fit(k)
    ensures C.Poll(Host3(k), 0, [C.In(k.a, PunchAck(Id(k), 1, Word(Nonce(k.rngH))))]) ==
      (Host4(k), [Out(k.ep, PunchReport(Id(k), 0, 1, 1))])
  {
    NonceSet(k.rngH);
    hide LobbyCode.Encode, XorShift.Next, R.Candidate, Word, Nonce;
    var c, d := Host3(k), Host4(k);
    var m := C.In(k.a, PunchAck(Id(k), 1, Word(Nonce(k.rngH))));
    PollOne(c, m);
    AckSlot(c, 1, k.a);
    assert d == c.(peer := c.peer.With(1, Acked(c.peer.At(1), k.a)));
    PunchPair(d, 1);
    Reported(d, 1);
    assert !C.AllPairsDecided(d) by { assert !d.known.At(0, 1); }
    assert !C.LocalRoutesDecided(d) by { assert d.peer.At(1).route < 0; }
    CalmDuties(d, d, []);
    var report := [C.ReportOf(c, 1, 1)];
    assert report + [] == report;
  }

  /** The closing duties of a host whose mesh has just been decided. */
  lemma HostOffers(c: C.Client, d: C.Client)
    requires c.beginMs == 0 && c.lastKeepalive == 0 && c.stage == C.Punching && c.isHost && !c.startSeen
      && !c.hostStartSent
    requires c.sessionId != 0 && C.AllPairsDecided(c) && C.LocalRoutesDecided(c) && C.StageDuty(c, 0) == (c, [])
    requires d == c.(stage := C.AwaitingStart, hostStartSent := true, lastStart := 0)
    ensures C.Duties(c, 0) == (d, [Out(c.server, Start(C.Params(c)))])
  {
    hide C.StageDuty, C.AllPairsDecided, C.LocalRoutesDecided, C.Params;
    var e := c.(hostStartSent := true, lastStart := 0);
    var offer := [Out(c.server, Start(C.Params(c)))];
    assert C.HostDuty(c, 0) == (e, offer);
    SameRoutes(c, e);
    assert C.Finish(e) == d;
    assert C.KeepDuty(d, 0) == (d, []);
    assert [] + offer + [] == offer;
  }

  lemma SameRoutes(c: C.Client, d: C.Client)
    requires d.numPlayers == c.numPlayers && d.localSlot == c.localSlot && d.peer == c.peer
    ensures C.LocalRoutesDecided(d) == C.LocalRoutesDecided(c)
  {
  }

  /** The verdict on the only pair. */
  lemma RouteSlot(c: C.Client, i: Slot)
    requires i < 2 && c.localSlot == 1 - i && c.numPlayers == 2
    ensures var d := C.OnPairRoute(c, 0, 1, ROUTE_DIRECT);
      && d == c.(known := c.known.Mark(0, 1).Mark(1, 0), peer := c.peer.With(i, c.peer.At(i).(route := 0)))
      && C.AllPairsDecided(d) && C.LocalRoutesDecided(d)
  {
    var d := C.OnPairRoute(c, 0, 1, ROUTE_DIRECT);
    hide C.Known.Mark, C.Known.At, Quad.With, Quad.At;
    assert d == c.(known := c.known.Mark(0, 1).Mark(1, 0), peer := c.peer.With(i, c.peer.At(i).(route := 0)));
    assert d.known.At(0, 1) && d.peer.At(i).route == 0;
    forall x: Slot, y: Slot | x < y < d.numPlayers ensures d.known.At(x, y) {
      assert x == 0 && y == 1;
    }
  }

  lemma HostDecides(k: Cast)
    requires Fit(k)
    ensures C.Poll(Host4(k), 0, [C.In(k.ep, PairRoute(0, 1, ROUTE_DIRECT))]) ==
      (Host5(k), [Out(k.ep, Start(Match(k)))])
  {
    hide LobbyCode.Encode, XorShift.Next, R.Candidate, Word, Nonce;
    var c, d := Host4(k), Host5(k);
    PollOne(c, C.In(k.ep, PairRoute(0, 1, ROUTE_DIRECT)));
    RouteSlot(c, 1);
    var m := d.(stage := C.Punching, hostStartSent := false);
    hide C.Known.Mark, Quad.With;
    assert C.OnPairRoute(c, 0, 1, ROUTE_DIRECT) == m;
    PunchPair(m, 1);
    Reported(m, 1);
    HostOffers(m, d);
    var offer := [Out(k.ep, Start(Match(k)))];
    assert [] + offer == offer;
  }

  /** Completion once START has been seen. */
  lemma Completes(c: C.Client, d: C.Client)
    requires c.beginMs == 0 && c.lastKeepalive == 0 && (c.stage == C.Punching || c.stage == C.AwaitingStart)
    requires c.startSeen && C.LocalRoutesDecided(c) && C.StageDuty(c, 0) == (c, [])
    requires d == c.(stage := C.Ready, result := Some(C.FillResult(c)))
    ensures C.Duties(c, 0) == (d, [])
  {
    hide C.StageDuty, C.AllPairsDecided, C.LocalRoutesDecided, C.Params, C.FillResult;
    assert C.HostDuty(c, 0) == (c, []);
    assert C.Finish(c) == d;
    assert C.KeepDuty(d, 0) == (d, []);
    var none: seq<Out> := [];
    assert none + none + none == none;
  }

  lemma HostStarts(k: Cast)
    requires Fit(k)
    ensures C.Poll(Host5(k), 0, [C.In(k.ep, Start(Match(k)))]) == (Host6(k), [Out(k.ep, StartAck(Id(k), 0))])
  {
    hide LobbyCode.Encode, XorShift.Next, R.Candidate, Word, Nonce;
    RouteSlot(Host4(k), 1);
    var c, d := Host5(k), Host6(k);
    var m := c.(startSeen := true);
    PollOne(c, C.In(k.ep, Start(Match(k))));
    SameRoutes(C.OnPairRoute(Host4(k), 0, 1, ROUTE_DIRECT), m);
    hide C.Known.Mark, Quad.With, C.FillResult;
    assert C.OnStart(c, Match(k)) == (m, [Out(k.ep, StartAck(Id(k), 0))]);
    assert C.StageDuty(m, 0) == (m, []);
    Completes(m, d);
    var ack := [Out(k.ep, StartAck(Id(k), 0))];
    assert ack + [] == ack;
  }

  // ------------------------------------------------------- the joiner's polls

  lemma JoinerSits(k: Cast)
    requires Fit(k)
    ensures C.Poll(Join0(k, k.a), 0, [C.In(k.ep, JoinResp(1, 2)), C.In(k.ep, PeerIntro(0, k.h, k.b))]) == (Join1(k), [])
  {
    hide XorShift.Next, R.Candidate;
    var c, d := Join0(k, k.a), Join1(k);
    PollTwo(c, C.In(k.ep, JoinResp(1, 2)), C.In(k.ep, PeerIntro(0, k.h, k.b)));
    var m := C.OnJoinResp(c, 1, 2);
    assert m == c.(stage := C.WaitingPeers, localSlot := 1, numPlayers := 2,
      peer := c.peer.With(1, C.NO_PEER.(present := true)));
    MeetSlot(m, 0, k.h, k.b);
    var n := C.OnPeerIntro(m, 0, 0, k.h, k.b);
    assert n == d.(stage := C.WaitingPeers);
    assert C.AllPeersPresent(n);
    hide Quad.With, C.OnPeerIntro, C.OnJoinResp;
    AimPair(n, 0);
    assert !C.LocalRoutesDecided(d) by { assert d.peer.At(0).route < 0; }
    WaitEnds(n, d);
    CalmDuties(n, d, []);
    var none: seq<Out> := [];
    assert none + none + none == none;
  }

  lemma JoinerProbes(k: Cast)
    requires Fit(k)
    ensures C.Poll(Join1(k), 0, []) == (Join2(k), [Out(k.b, Punch(Id(k), 1, Word(Nonce(k.rngA))))])
  {
    hide XorShift.Next, R.Candidate, Word, Nonce;
    var c, d := Join1(k), Join2(k);
    PollNone(c);
    PunchPair(c, 0);
    FirstProbe(c, 0, k.h, k.b, Nonce(k.rngA));
    assert !C.LocalRoutesDecided(d) by { assert d.peer.At(0).route < 0; }
    CalmDuties(c, d, [Out(k.b, Punch(Id(k), 1, Word(Nonce(k.rngA))))]);
  }

  /** The bystander, still without a slot, answers in the name of slot 0. */
  lemma BystanderAnswers(k: Cast)
    requires Fit(k)
    ensures C.Poll(Join0(k, k.b), 0, [C.In(k.a, Punch(Id(k), 1, Word(Nonce(k.rngA))))]) ==
      (Join0(k, k.b), [Out(k.a, PunchAck(Id(k), 0, Word(Nonce(k.rngA))))])
  {
    hide XorShift.Next, R.Candidate, Word, Nonce;
    var c := Join0(k, k.b);
    PollOne(c, C.In(k.a, Punch(Id(k), 1, Word(Nonce(k.rngA)))));
    WaitStill(c);
    CalmDuties(c, c, []);
    var ack := [Out(k.a, PunchAck(Id(k), 0, Word(Nonce(k.rngA))))];
    assert ack + [] == ack;
  }

  lemma JoinerIsAcked(k: Cast)
    requires Fit(k)
    ensures C.Poll(Join2(k), 0, [C.In(k.b, PunchAck(Id(k), 0, Word(Nonce(k.rngA))))]) ==
      (Join3(k), [Out(k.ep, PunchReport(Id(k), 0, 1, 1))])
  {
    NonceSet(k.rngA);
    hide XorShift.Next, R.Candidate, Word, Nonce;
    var c, d := Join2(k), Join3(k);
    PollOne(c, C.In(k.b, PunchAck(Id(k), 0, Word(Nonce(k.rngA)))));
    AckSlot(c, 0, k.b);
    assert d == c.(peer := c.peer.With(0, Acked(c.peer.At(0), k.b)));
    PunchPair(d, 0);
    Reported(d, 0);
    assert !C.LocalRoutesDecided(d) by { assert d.peer.At(0).route < 0; }
    CalmDuties(d, d, []);
    var report := [C.ReportOf(c, 0, 1)];
    assert report + [] == report;
  }

  lemma JoinerAnswers(k: Cast)
    requires Fit(k)
    ensures C.Poll(Join3(k), 0, [C.In(k.h, Punch(Id(k), 0, Word(Nonce(k.rngH))))]) ==
      (Join3(k), [Out(k.h, PunchAck(Id(k), 1, Word(Nonce(k.rngH))))])
  {
    hide XorShift.Next, R.Candidate, Word, Nonce;
    var c := Join3(k);
    PollOne(c, C.In(k.h, Punch(Id(k), 0, Word(Nonce(k.rngH)))));
    PunchPair(c, 0);
    Reported(c, 0);
    assert !C.LocalRoutesDecided(c) by { assert c.peer.At(0).route < 0; }
    CalmDuties(c, c, []);
    var ack := [Out(k.h, PunchAck(Id(k), 1, Word(Nonce(k.rngH))))];
    assert ack + [] == ack;
  }

  lemma JoinerSettles(k: Cast)
    requires Fit(k)
    ensures var m := C.OnPairRoute(Join3(k), 0, 1, ROUTE_DIRECT);
      && C.Receive(Join3(k), 0, k.ep, PairRoute(0, 1, ROUTE_DIRECT)) == (m, [])
      && C.Receive(m, 0, k.ep, Start(Match(k))) == (Settled(k), [Out(k.ep, StartAck(Id(k), 1))])
    ensures C.LocalRoutesDecided(Settled(k)) && Settled(k).peer.At(0).route == 0
  {
    hide XorShift.Next, R.Candidate, Word, Nonce;
    RouteSlot(Join3(k), 0);
    var m := C.OnPairRoute(Join3(k), 0, 1, ROUTE_DIRECT);
    hide C.Known.Mark, Quad.With, C.OnPairRoute;
    assert C.OnStart(m, Match(k)) == (Settled(k), [Out(k.ep, StartAck(Id(k), 1))]);
    SameRoutes(m, Settled(k));
  }

  lemma JoinerStarts(k: Cast)
    requires Fit(k)
    ensures C.Poll(Join3(k), 0, [C.In(k.ep, PairRoute(0, 1, ROUTE_DIRECT)), C.In(k.ep, Start(Match(k)))]) ==
      (Join4(k), [Out(k.ep, StartAck(Id(k), 1))])
  {
    JoinerSettles(k);
    PollTwo(Join3(k), C.In(k.ep, PairRoute(0, 1, ROUTE_DIRECT)), C.In(k.ep, Start(Match(k))));
    var n := Settled(k);
    hide XorShift.Next, R.Candidate, Word, Nonce, C.Known.Mark, Quad.With, C.FillResult, C.OnPairRoute, C.Receive;
    PunchPair(n, 0);
    Reported(n, 0);
    Completes(n, Join4(k));
    var ack := [Out(k.ep, StartAck(Id(k), 1))];
    assert [] + ack + [] == ack;
  }

  // ---------------------------------------------------------------- the server

  function Table(h: R.Session): seq<R.Session> {
    [h] + seq(R.MAX_SESSIONS - 1, _ => R.CLEARED)
  }

  /** Every bucket can let n more messages through at time zero. */
  predicate Rich(sv: R.Server, n: nat) {
    |sv.rate| == R.RATE_BUCKETS && n <= 40
    && forall j :: 0 <= j < R.RATE_BUCKETS ==> sv.rate[j].tokensMilli >= 1000 * n && sv.rate[j].lastMs == 0
  }

  function Ask(k: Cast): Msg {
    HostReq(k.version, 2, k.b)
  }

  function Opened(k: Cast): R.Session {
    R.OpenSession(Id(k), 0, k.h, Ask(k))
  }

  function Joined(k: Cast): R.Session {
    R.Admit(Opened(k), 0, k.a, 1, k.a)
  }

  function Half(k: Cast): R.Session {
    R.Record(Joined(k), 0, 1, 0, 1)
  }

  function Decided(k: Cast): R.Session {
    R.Decide(R.Record(Half(k), 0, 0, 1, 1), 0, 0, 1)
  }

  function Begun(k: Cast): R.Session {
    R.BeginStart(Decided(k), 0, Match(k)).0
  }

  /** A message that has its token is dispatched, on the same table and generator. */
  lemma Admitted(sv: R.Server, from: Endpoint, m: Msg, n: nat) returns (su: R.Server)
    requires Rich(sv, n) && n > 0 && !m.Relay?
    ensures Rich(su, n - 1) && su.sessions == sv.sessions && su.rng == sv.rng
      && R.Handle(sv, 0, from, m) == R.Dispatch(su, 0, from, m)
  {
    var j := from.ip % R.RATE_BUCKETS;
    su := sv.(rate := sv.rate[j := R.RateTake(sv.rate[j], 0).0]);
    assert R.RateTake(sv.rate[j], 0).1;
    hide R.Dispatch;
  }

  lemma StaysRich(sv: R.Server, from: Endpoint, m: Msg, n: nat)
    requires Rich(sv, n)
    ensures Rich(R.Dispatch(sv, 0, from, m).0, n)
  {
    RendezvousClock.DispatchRate(sv, 0, from, m);
    hide R.Dispatch;
  }

  lemma Found(h: R.Session, id: u16)
    requires h.phase != R.Free && h.id == id && id != 0
    ensures R.FindSession(Table(h), id) == Some(0)
  {
    assert R.HasId(Table(h)[0], id);
  }

  lemma EmptyTable(now: u32, seed: bv32)
    ensures R.Init(now, seed).sessions == Table(R.CLEARED)
  {
  }

  lemma Nobody(id: u16)
    ensures R.FindSession(Table(R.CLEARED), id) == None
  {
    assert forall j :: 0 <= j < |Table(R.CLEARED)| ==> Table(R.CLEARED)[j] == R.CLEARED;
  }

  lemma Opens(k: Cast, sv: R.Server)
    requires Fit(k) && sv.sessions == Table(R.CLEARED) && sv.rng == (if k.draw == 0 then 1 else k.draw)
    ensures var r := R.Dispatch(sv, 0, k.h, Ask(k));
      r.0.sessions == Table(Opened(k)) && r.1 == [Out(k.h, HostResp(Id(k)))]
  {
    hide XorShift.Next, R.Candidate, R.OpenSession;
    var ss := Table(R.CLEARED);
    assert forall j :: 0 <= j < |ss| ==> ss[j] == R.CLEARED;
    assert ss[0].phase == R.Free;
    Nobody(Id(k));
    assert R.PickId(sv.rng, ss, R.ID_TRIES) == (Draw(k), Some(Id(k)));
    hide R.PickId;
    assert ss[0 := Opened(k)] == Table(Opened(k));
  }

  lemma Replaced(h: R.Session, g: R.Session)
    ensures Table(h)[0 := g] == Table(g)
  {
  }

  lemma Admits(k: Cast, sv: R.Server)
    requires Fit(k) && sv.sessions == Table(Opened(k))
    ensures var r := R.Dispatch(sv, 0, k.a, JoinReq(Id(k), k.version, k.a));
      && r.0.sessions == Table(Joined(k))
      && Out(k.a, JoinResp(1, 2)) in r.1 && Out(k.h, PeerIntro(1, k.a, k.a)) in r.1
         && Out(k.a, PeerIntro(0, k.h, k.b)) in r.1
  {
    hide XorShift.Next, R.Candidate;
    var h := Opened(k);
    Found(h, Id(k));
    Replaced(h, Joined(k));
    assert forall j: Slot :: h.peers.At(j) == if j == 0 then R.Peer(true, false, k.h, k.b, 0) else R.NO_PEER;
    var t := Joined(k);
    assert forall j: Slot ::
      t.peers.At(j) == if j == 0 then R.Peer(true, false, k.h, k.b, 0)
        else if j == 1 then R.Peer(true, false, k.a, k.a, 0) else R.NO_PEER;
    hide R.OpenSession, R.Admit, Quad.At, R.FindSession, Table;
    assert R.FanIntro(t, 1, 0) == [R.Intro(t, 1, 0), R.Intro(t, 0, 1)] + R.FanIntro(t, 1, 1);
    assert R.Join(h, 0, k.a, JoinReq(Id(k), k.version, k.a)) == (t, [Out(k.a, JoinResp(1, 2))] + R.FanIntro(t, 1, 0));
    hide R.FanIntro;
  }

  /** Members 0 and 1 are the host and the joiner, at these addresses. */
  predicate TwoSeats(k: Cast, h: R.Session) {
    && h.phase != R.Free && h.id == Id(k)
    && R.Owns(h.peers.At(0), k.h) && R.Owns(h.peers.At(1), k.a) && !h.peers.At(2).used && !h.peers.At(3).used
  }

  lemma Seats(k: Cast)
    requires Fit(k)
    ensures TwoSeats(k, Joined(k)) && TwoSeats(k, Half(k)) && TwoSeats(k, Decided(k))
    ensures Joined(k).pairs == R.NO_CELLS && Joined(k).phase == R.Lobby && Half(k).phase == R.Lobby
      && Decided(k).phase == R.Lobby
  {
    hide R.Candidate;
  }

  lemma Members(k: Cast, h: R.Session)
    requires Fit(k) && TwoSeats(k, h)
    ensures R.PeerOf(h, k.h) == Some(0) && R.PeerOf(h, k.a) == Some(1)
  {
    hide R.Candidate;
    assert !R.Owns(h.peers.At(0), k.a);
  }

  lemma JoinerReports(k: Cast, sv: R.Server)
    requires Fit(k) && sv.sessions == Table(Joined(k))
    ensures R.Dispatch(sv, 0, k.a, PunchReport(Id(k), 0, 1, 1)).0.sessions == Table(Half(k))
  {
    Seats(k);
    Found(Joined(k), Id(k));
    Members(k, Joined(k));
    Replaced(Joined(k), Half(k));
    assert Half(k).pairs.At(0, 1).punch == -1 by { assert R.NO_CELLS.At(0, 1) == R.NO_CELL; hide R.Touch; }
    hide R.Candidate, R.Record, Joined, R.FindSession, R.PeerOf, Table, R.Grid.At, Quad.At;
  }

  lemma BothOpen(k: Cast)
    requires Fit(k)
    ensures var h := R.Record(Half(k), 0, 0, 1, 1);
      h.pairs.At(0, 1).punch == 1 && h.pairs.At(1, 0).punch == 1 && !h.pairs.At(0, 1).routeSent
      && R.RouteOf(h.pairs, 0, 1) == ROUTE_DIRECT
  {
    Seats(k);
    assert R.NO_CELLS.At(0, 1) == R.NO_CELL && R.NO_CELLS.At(1, 0) == R.NO_CELL;
    hide R.Candidate, Joined, R.Touch;
  }

  lemma HostReports(k: Cast, sv: R.Server)
    requires Fit(k) && sv.sessions == Table(Half(k))
    ensures var r := R.Dispatch(sv, 0, k.h, PunchReport(Id(k), 0, 1, 1));
      && r.0.sessions == Table(Decided(k))
      && Out(k.h, PairRoute(0, 1, ROUTE_DIRECT)) in r.1 && Out(k.a, PairRoute(0, 1, ROUTE_DIRECT)) in r.1
  {
    Seats(k);
    Found(Half(k), Id(k));
    Members(k, Half(k));
    Replaced(Half(k), Decided(k));
    BothOpen(k);
    FansOut(k, Decided(k), PairRoute(0, 1, ROUTE_DIRECT));
    hide R.Candidate, R.Record, Half, R.Decide, R.FindSession, R.PeerOf, Table, R.Grid.At, R.FanRoute, R.RouteOf;
  }

  lemma FansOut(k: Cast, h: R.Session, m: Msg)
    requires TwoSeats(k, h)
    ensures Out(k.h, m) in R.FanRoute(h, m, 0) && Out(k.a, m) in R.FanRoute(h, m, 0)
  {
    hide Quad.At;
    assert R.FanRoute(h, m, 1) == [Out(h.peers.At(1).publicEp, m)] + R.FanRoute(h, m, 2);
    assert R.FanRoute(h, m, 0) == [Out(h.peers.At(0).publicEp, m)] + R.FanRoute(h, m, 1);
  }

  lemma HostBegins(k: Cast, sv: R.Server)
    requires Fit(k) && sv.sessions == Table(Decided(k))
    ensures var r := R.Dispatch(sv, 0, k.h, Start(Match(k)));
      && r.0.sessions == Table(Begun(k))
      && Out(k.h, Start(Match(k))) in r.1 && Out(k.a, Start(Match(k))) in r.1
  {
    Seats(k);
    var h := Decided(k);
    Replaced(h, Begun(k));
    assert R.HostsLive(Table(h)[0], k.h);
    var t := Begun(k);
    StartSeats(k);
    hide R.Candidate, R.Record, Decided, Table, R.Grid.At, R.Touch, Quad.At;
    assert R.FanStart(t, false, 1) == [Out(k.a, Start(Match(k)))] + R.FanStart(t, false, 2);
    assert R.FanStart(t, false, 0) == [Out(k.h, Start(Match(k)))] + R.FanStart(t, false, 1);
    hide R.FanStart;
  }

  lemma StartSeats(k: Cast)
    requires Fit(k)
    ensures var t := Begun(k);
      R.Owns(t.peers.At(0), k.h) && R.Owns(t.peers.At(1), k.a) && t.start == Some(Match(k))
  {
    Seats(k);
    hide R.Candidate, Decided, R.FanStart;
  }

  // ------------------------------------------------------------------ the run

  lemma {:induction false} Longer(s: System, steps: seq<Step>, step: Step)
    requires Runs(s, steps) && |Final(s, steps).server.rate| == R.RATE_BUCKETS && Enabled(Final(s, steps), step)
    requires |Apply(Final(s, steps), step).server.rate| == R.RATE_BUCKETS
    ensures Runs(s, steps + [step]) && Final(s, steps + [step]) == Apply(Final(s, steps), step)
    decreases |steps|
  {
    hide Enabled, Apply;
    if steps == [] {
      assert steps + [step] == [step];
      var one := [step];
      assert one[1..] == [];
    } else {
      assert (steps + [step])[0] == steps[0] && (steps + [step])[1..] == steps[1..] + [step];
      Longer(Apply(s, steps[0]), steps[1..], step);
    }
  }

  ghost predicate Reaches(s: System, t: System) {
    exists steps :: Runs(s, steps) && Final(s, steps) == t
  }

  lemma ReachesOn(s: System, t: System, step: Step)
    requires Reaches(s, t) && |t.server.rate| == R.RATE_BUCKETS && Enabled(t, step)
      && |Apply(t, step).server.rate| == R.RATE_BUCKETS
    ensures Reaches(s, Apply(t, step))
  {
    hide Enabled, Apply;
    var steps :| Runs(s, steps) && Final(s, steps) == t;
    Longer(s, steps, step);
  }

  /** Where the run stands: who is there, the session, and tokens for n more messages. */
  ghost predicate Stands(s0: System, s: System, k: Cast, clients: map<Endpoint, C.Client>, h: R.Session, n: nat) {
    Reaches(s0, s) && s.ep == k.ep && s.clients == clients && s.server.sessions == Table(h) && Rich(s.server, n)
  }

  /** A poll that was computed above. */
  lemma Polled(s0: System, s: System, k: Cast, clients: map<Endpoint, C.Client>, h: R.Session, n: nat,
               e: Endpoint, inbox: seq<C.In>, d: C.Client, out: seq<Out>) returns (t: System)
    requires Stands(s0, s, k, clients, h, n) && e in clients && C.Poll(clients[e], 0, inbox) == (d, out)
    requires forall m :: m in inbox ==> Packet(m.from, e, m.msg) in s.net
    ensures Stands(s0, t, k, clients[e := d], h, n) && s.net <= t.net && t.server == s.server
    ensures forall o :: o in out ==> Packet(e, o.to, o.msg) in t.net
  {
    hide C.Poll, Reaches, Table;
    t := After(s, e, d, out);
    assert Apply(s, ClientPoll(e, 0, inbox)) == t;
    ReachesOn(s0, s, ClientPoll(e, 0, inbox));
  }

  /** A message the server handles as computed above. */
  lemma Served(s0: System, s: System, k: Cast, clients: map<Endpoint, C.Client>, h: R.Session, n: nat,
               from: Endpoint, m: Msg) returns (t: System, su: R.Server)
    requires Stands(s0, s, k, clients, h, n) && n > 0 && !m.Relay? && Packet(from, k.ep, m) in s.net
    ensures Rich(su, n - 1) && su.sessions == Table(h) && su.rng == s.server.rng
    ensures var r := R.Dispatch(su, 0, from, m);
      && (forall g: R.Session :: r.0.sessions == Table(g) ==> Stands(s0, t, k, clients, g, n - 1))
      && s.net <= t.net && (forall o :: o in r.1 ==> Packet(k.ep, o.to, o.msg) in t.net)
  {
    hide R.Dispatch, Reaches, Table, R.Handle;
    su := Admitted(s.server, from, m, n);
    StaysRich(su, from, m, n - 1);
    t := ServerAfter(s, R.Handle(s.server, 0, from, m));
    assert Apply(s, ServerReceive(0, from, m)) == t;
    ReachesOn(s0, s, ServerReceive(0, from, m));
  }

  function Trio(k: Cast, h: C.Client, a: C.Client, b: C.Client): map<Endpoint, C.Client> {
    map[k.h := h, k.a := a, k.b := b]
  }

  lemma TrioWith(k: Cast, h: C.Client, a: C.Client, b: C.Client, d: C.Client)
    requires Fit(k)
    ensures Trio(k, h, a, b)[k.h := d] == Trio(k, d, a, b) && Trio(k, h, a, b)[k.a := d] == Trio(k, h, d, b)
    ensures Trio(k, h, a, b)[k.b := d] == Trio(k, h, a, d)
    ensures k.h in Trio(k, h, a, b) && Trio(k, h, a, b)[k.h] == h && k.a in Trio(k, h, a, b)
      && Trio(k, h, a, b)[k.a] == a
    ensures k.b in Trio(k, h, a, b) && Trio(k, h, a, b)[k.b] == b
  {
    hide R.Candidate;
  }

  lemma Starts(k: Cast) returns (t: System)
    requires Fit(k)
    ensures Stands(Initial(k.ep, 0, k.draw), t, k, map[k.h := Host0(k)], R.CLEARED, 40)
    ensures Ask(k).HostReq? && Packet(k.h, k.ep, Ask(k)) in t.net && t.server.rng == (if k.draw == 0 then 1 else k.draw)
  {
    hide R.Candidate, Table;
    var s := Initial(k.ep, 0, k.draw);
    EmptyTable(0, k.draw);
    var none: seq<Step> := [];
    assert Runs(s, none) && Final(s, none) == s;
    var step := HostStart(k.h, 0, k.rngH, k.b, k.version, Match(k));
    var r := C.HostBegin(0, k.rngH, k.ep, k.b, k.version, Match(k)).value;
    assert r == (Host0(k), [Out(k.ep, Ask(k))]);
    t := Apply(s, step);
    assert t == After(s, k.h, r.0, r.1);
    hide C.HostBegin, Reaches;
    assert Out(k.ep, Ask(k)) in r.1;
    assert t.clients == map[k.h := Host0(k)];
    assert Reaches(s, s) by { ReachesSelf(s); }
    ReachesOn(s, s, step);
  }

  lemma ReachesSelf(s: System)
    requires |s.server.rate| == R.RATE_BUCKETS
    ensures Reaches(s, s)
  {
    var none: seq<Step> := [];
    assert Runs(s, none) && Final(s, none) == s;
  }

  /** The host gets its code. */
  lemma ActCode(k: Cast) returns (t: System)
    requires Fit(k)
    ensures Stands(Initial(k.ep, 0, k.draw), t, k, map[k.h := Host1(k)], Opened(k), 39)
  {
    hide *;
    var s0 := Initial(k.ep, 0, k.draw);
    var s1 := Starts(k);
    var s2, su := Served(s0, s1, k, map[k.h := Host0(k)], R.CLEARED, 40, k.h, Ask(k));
    Opens(k, su);
    assert Out(k.h, HostResp(Id(k))) in R.Dispatch(su, 0, k.h, Ask(k)).1;
    HostHears(k);
    var inbox := [C.In(k.ep, HostResp(Id(k)))];
    t := Polled(s0, s2, k, map[k.h := Host0(k)], Opened(k), 39, k.h, inbox, Host1(k), []);
    assert map[k.h := Host0(k)][k.h := Host1(k)] == map[k.h := Host1(k)];
  }

  lemma JoinBegins(k: Cast, e: Endpoint)
    requires Fit(k)
    ensures C.JoinBegin(0, k.rngA, e, k.version, Host1(k).code) ==
      Some((Join0(k, e), [Out(k.ep, JoinReq(Id(k), k.version, e))]))
  {
    hide R.Candidate, LobbyCode.Encode, LobbyCode.Decode;
    LobbyCode.CodeRoundTrip(k.ep, Id(k));
  }

  /** Somebody types the host's code. */
  lemma Types(k: Cast, s: System, clients: map<Endpoint, C.Client>, n: nat, e: Endpoint) returns (t: System)
    requires Fit(k) && Stands(Initial(k.ep, 0, k.draw), s, k, clients, Opened(k), n)
    requires k.h in clients && clients[k.h] == Host1(k) && e !in clients && e != k.ep
    ensures Stands(Initial(k.ep, 0, k.draw), t, k, clients[e := Join0(k, e)], Opened(k), n) && s.net <= t.net
    ensures Packet(e, k.ep, JoinReq(Id(k), k.version, e)) in t.net
  {
    JoinBegins(k, e);
    assert Host1(k).isHost;
    hide Table, Opened, Host1, Join0, LobbyCode.Decode, LobbyCode.Encode, Reaches, C.JoinBegin, R.Candidate;
    var step := JoinStart(e, 0, k.rngA, e, k.version, k.h);
    assert Enabled(s, step);
    t := Apply(s, step);
    var out := [Out(k.ep, JoinReq(Id(k), k.version, e))];
    assert t == After(s, e, Join0(k, e), out);
    assert out[0] in out;
    ReachesOn(Initial(k.ep, 0, k.draw), s, step);
  }

  /** Both type the code; the joiner is admitted, the bystander's request is lost. */
  lemma ActJoin(k: Cast) returns (t: System)
    requires Fit(k)
    ensures Stands(Initial(k.ep, 0, k.draw), t, k, Trio(k, Host1(k), Join0(k, k.a), Join0(k, k.b)), Joined(k), 38)
    ensures Packet(k.ep, k.a, JoinResp(1, 2)) in t.net && Packet(k.ep, k.h, PeerIntro(1, k.a, k.a)) in t.net
    ensures Packet(k.ep, k.a, PeerIntro(0, k.h, k.b)) in t.net
  {
    hide *;
    var s0 := Initial(k.ep, 0, k.draw);
    var s1 := ActCode(k);
    var m1 := map[k.h := Host1(k)];
    FitApart(k);
    var s2 := Types(k, s1, m1, 39, k.a);
    var m2 := m1[k.a := Join0(k, k.a)];
    var s3 := Types(k, s2, m2, 39, k.b);
    var m3 := m2[k.b := Join0(k, k.b)];
    assert m3 == Trio(k, Host1(k), Join0(k, k.a), Join0(k, k.b)) by {
      TrioIs(k, Host1(k), Join0(k, k.a), Join0(k, k.b));
    }
    var su;
    t, su := Served(s0, s3, k, m3, Opened(k), 39, k.a, JoinReq(Id(k), k.version, k.a));
    Admits(k, su);
  }

  lemma FitApart(k: Cast)
    requires Fit(k)
    ensures k.ep != k.h && k.ep != k.a && k.ep != k.b && k.h != k.a && k.h != k.b && k.a != k.b
  {
  }

  lemma TrioIs(k: Cast, h: C.Client, a: C.Client, b: C.Client)
    ensures map[k.h := h][k.a := a][k.b := b] == Trio(k, h, a, b)
  {
  }

  /** The joiner probes the host's private address, and the bystander answers. */
  lemma ActProbe(k: Cast) returns (t: System)
    requires Fit(k)
    ensures Stands(Initial(k.ep, 0, k.draw), t, k, Trio(k, Host1(k), Join3(k), Join0(k, k.b)), Joined(k), 38)
    ensures Packet(k.ep, k.h, PeerIntro(1, k.a, k.a)) in t.net
      && Packet(k.a, k.ep, PunchReport(Id(k), 0, 1, 1)) in t.net
  {
    hide *;
    var s0 := Initial(k.ep, 0, k.draw);
    var h, b := Host1(k), Join0(k, k.b);
    var s1 := ActJoin(k);
    TrioWith(k, h, Join0(k, k.a), b, Join1(k));
    JoinerSits(k);
    var in1 := [C.In(k.ep, JoinResp(1, 2)), C.In(k.ep, PeerIntro(0, k.h, k.b))];
    var s2 := Polled(s0, s1, k, Trio(k, h, Join0(k, k.a), b), Joined(k), 38, k.a, in1, Join1(k), []);
    TrioWith(k, h, Join1(k), b, Join2(k));
    JoinerProbes(k);
    var probe := Out(k.b, Punch(Id(k), 1, Word(Nonce(k.rngA))));
    var s3 := Polled(s0, s2, k, Trio(k, h, Join1(k), b), Joined(k), 38, k.a, [], Join2(k), [probe]);
    assert probe in [probe];
    TrioWith(k, h, Join2(k), b, b);
    BystanderAnswers(k);
    var ack := Out(k.a, PunchAck(Id(k), 0, Word(Nonce(k.rngA))));
    var s4 := Polled(s0, s3, k, Trio(k, h, Join2(k), b), Joined(k), 38, k.b, [C.In(k.a, probe.msg)], b, [ack]);
    assert ack in [ack];
    TrioWith(k, h, Join2(k), b, Join3(k));
    JoinerIsAcked(k);
    var report := Out(k.ep, PunchReport(Id(k), 0, 1, 1));
    t := Polled(s0, s4, k, Trio(k, h, Join2(k), b), Joined(k), 38, k.a, [C.In(k.b, ack.msg)], Join3(k), [report]);
    assert report in [report];
  }

  /** The host probes the joiner and is answered by it. */
  lemma ActAnswer(k: Cast) returns (t: System)
    requires Fit(k)
    ensures Stands(Initial(k.ep, 0, k.draw), t, k, Trio(k, Host4(k), Join3(k), Join0(k, k.b)), Joined(k), 38)
    ensures Packet(k.h, k.ep, PunchReport(Id(k), 0, 1, 1)) in t.net
      && Packet(k.a, k.ep, PunchReport(Id(k), 0, 1, 1)) in t.net
  {
    hide *;
    var s0 := Initial(k.ep, 0, k.draw);
    var a, b := Join3(k), Join0(k, k.b);
    var s1 := ActProbe(k);
    TrioWith(k, Host1(k), a, b, Host2(k));
    HostMeets(k);
    var s2 := Polled(s0, s1, k, Trio(k, Host1(k), a, b), Joined(k), 38, k.h, [C.In(k.ep, PeerIntro(1, k.a, k.a))],
      Host2(k), []);
    TrioWith(k, Host2(k), a, b, Host3(k));
    HostProbes(k);
    var probe := Out(k.a, Punch(Id(k), 0, Word(Nonce(k.rngH))));
    var s3 := Polled(s0, s2, k, Trio(k, Host2(k), a, b), Joined(k), 38, k.h, [], Host3(k), [probe]);
    assert probe in [probe];
    TrioWith(k, Host3(k), a, b, a);
    JoinerAnswers(k);
    var ack := Out(k.h, PunchAck(Id(k), 1, Word(Nonce(k.rngH))));
    var s4 := Polled(s0, s3, k, Trio(k, Host3(k), a, b), Joined(k), 38, k.a, [C.In(k.h, probe.msg)], a, [ack]);
    assert ack in [ack];
    TrioWith(k, Host3(k), a, b, Host4(k));
    HostIsAcked(k);
    var report := Out(k.ep, PunchReport(Id(k), 0, 1, 1));
    t := Polled(s0, s4, k, Trio(k, Host3(k), a, b), Joined(k), 38, k.h, [C.In(k.a, ack.msg)], Host4(k), [report]);
    assert report in [report];
  }

  /** Two good reports make the pair DIRECT, and the host offers the match. */
  lemma ActVerdict(k: Cast) returns (t: System)
    requires Fit(k)
    ensures Stands(Initial(k.ep, 0, k.draw), t, k, Trio(k, Host5(k), Join3(k), Join0(k, k.b)), Decided(k), 36)
    ensures Packet(k.ep, k.a, PairRoute(0, 1, ROUTE_DIRECT)) in t.net && Packet(k.h, k.ep, Start(Match(k))) in t.net
  {
    hide *;
    var s0 := Initial(k.ep, 0, k.draw);
    var a, b := Join3(k), Join0(k, k.b);
    var s1 := ActAnswer(k);
    var s2, su := Served(s0, s1, k, Trio(k, Host4(k), a, b), Joined(k), 38, k.a, PunchReport(Id(k), 0, 1, 1));
    JoinerReports(k, su);
    var s3, sv := Served(s0, s2, k, Trio(k, Host4(k), a, b), Half(k), 37, k.h, PunchReport(Id(k), 0, 1, 1));
    HostReports(k, sv);
    TrioWith(k, Host4(k), a, b, Host5(k));
    HostDecides(k);
    var offer := Out(k.ep, Start(Match(k)));
    t := Polled(s0, s3, k, Trio(k, Host4(k), a, b), Decided(k), 36, k.h, [C.In(k.ep, PairRoute(0, 1, ROUTE_DIRECT))],
      Host5(k), [offer]);
    assert offer in [offer];
  }

  /** Both start. */
  lemma ActStart(k: Cast) returns (t: System)
    requires Fit(k)
    ensures Stands(Initial(k.ep, 0, k.draw), t, k, Trio(k, Host6(k), Join4(k), Join0(k, k.b)), Begun(k), 35)
  {
    hide *;
    var s0 := Initial(k.ep, 0, k.draw);
    var b := Join0(k, k.b);
    var s1 := ActVerdict(k);
    var s2, su := Served(s0, s1, k, Trio(k, Host5(k), Join3(k), b), Decided(k), 36, k.h, Start(Match(k)));
    HostBegins(k, su);
    TrioWith(k, Host5(k), Join3(k), b, Host6(k));
    HostStarts(k);
    var s3 := Polled(s0, s2, k, Trio(k, Host5(k), Join3(k), b), Begun(k), 35, k.h, [C.In(k.ep, Start(Match(k)))],
                     Host6(k), [Out(k.ep, StartAck(Id(k), 0))]);
    TrioWith(k, Host6(k), Join3(k), b, Join4(k));
    JoinerStarts(k);
    t := Polled(s0, s3, k, Trio(k, Host6(k), Join3(k), b), Begun(k), 35, k.a,
                [C.In(k.ep, PairRoute(0, 1, ROUTE_DIRECT)), C.In(k.ep, Start(Match(k)))],
                Join4(k), [Out(k.ep, StartAck(Id(k), 1))]);
  }

  lemma Outcome(k: Cast)
    requires Fit(k)
    ensures var c, d := Host6(k), Join4(k);
      && c.stage == C.Ready && d.stage == C.Ready && c.sessionId == d.sessionId == Id(k) && c.result.Some?
         && d.result.Some?
      && c.result.value.localSlot == 0 && d.result.value.route.At(0) == C.Direct(k.b)
  {
    hide R.Candidate, XorShift.Next, Nonce, LobbyCode.Encode, C.Known.Mark;
    var c := Settled(k);
    RouteToAt(c, 0);
    assert c.peer.At(0).route == 0 && c.peer.At(0).chosen == k.b && c.localSlot == 1 && c.numPlayers == 2;
  }

  /** A host that advertises another joiner's address as its private endpoint: there is a
      run from a fresh server after which host and joiner are READY in one session, with
      a DIRECT route, and the joiner's leads to the bystander. */
  lemma StrayHappens(k: Cast) returns (steps: seq<Step>)
    requires Fit(k)
    ensures Runs(Initial(k.ep, 0, k.draw), steps)
    ensures var s := Final(Initial(k.ep, 0, k.draw), steps);
      && DirectPair(s, k.a, k.h, Id(k)) && Lead(s, k.a, k.h) == k.b != k.h
      && s.clients[k.h].privateEp == k.b
  {
    var s0 := Initial(k.ep, 0, k.draw);
    hide R.Candidate, Initial, Host6, Join4, Join0, Begun, Table, Runs, Final;
    var t := ActStart(k);
    steps :| Runs(s0, steps) && Final(s0, steps) == t;
    Outcome(k);
    TrioWith(k, Host6(k), Join4(k), Join0(k, k.b), Host6(k));
    HostPrivate(k);
  }

  lemma HostPrivate(k: Cast)
    ensures Host6(k).privateEp == k.b
  {
    hide R.Candidate, XorShift.Next, LobbyCode.Encode, C.Known.Mark, Quad.With;
  }

  // ---------------------------------------------------------- the exact condition

  /** After some run a READY client's direct route to f, which advertised priv, leads to g. */
  predicate MisledBy(ep: Endpoint, now: u32, draw: bv32, steps: seq<Step>, e: Endpoint, id: u16,
                     f: Endpoint, priv: Endpoint, g: Endpoint) {
    && Runs(Initial(ep, now, draw), steps)
    && var s := Final(Initial(ep, now, draw), steps);
       DirectPair(s, e, f, id) && s.clients[f].privateEp == priv && Lead(s, e, f) == g
  }

  ghost predicate CanMislead(f: Endpoint, priv: Endpoint, g: Endpoint) {
    exists ep, now, draw, steps, e, id :: MisledBy(ep, now, draw, steps, e, id, f, priv, g)
  }

  lemma OneFits(f: Endpoint, g: Endpoint) returns (k: Cast)
    requires f != g && g.port != 0
    ensures Fit(k) && k.h == f && k.b == g
  {
    var p, q, r, t := Endpoint(0, 1), Endpoint(1, 1), Endpoint(2, 1), Endpoint(3, 1);
    var ep := if p != f && p != g then p else if q != f && q != g then q else r;
    var a := if p != f && p != g && p != ep then p else if q != f && q != g && q != ep then q
             else if r != f && r != g && r != ep then r else t;
    k := Cast(ep, f, a, g, 0, 0, 0, 0, 1, 0, 0);
    FirstId();
  }

  lemma FirstId()
    ensures R.Candidate(XorShift.Next(1)) == 0x2021
  {
    assert XorShift.Next(1) == 0x42021;
  }

  /** A direct route to f can lead to somebody else, g, exactly if g is the private
      endpoint that f advertised and can be sent to. */
  lemma MisleadsExactly(f: Endpoint, priv: Endpoint, g: Endpoint)
    requires f != g
    ensures CanMislead(f, priv, g) <==> priv == g && g.port != 0
  {
    if CanMislead(f, priv, g) {
      var ep, now, draw, steps, e, id :| MisledBy(ep, now, draw, steps, e, id, f, priv, g);
      OnlyPrivate(ep, now, draw, steps, e, id, f, priv, g);
    }
    if priv == g && g.port != 0 {
      var k := OneFits(f, g);
      var steps := StrayHappens(k);
      hide Runs, Final, DirectPair, Lead, Fit;
      assert MisledBy(k.ep, 0, k.draw, steps, k.a, Id(k), f, priv, g);
    }
  }

  lemma OnlyPrivate(ep: Endpoint, now: u32, draw: bv32, steps: seq<Step>, e: Endpoint, id: u16,
                    f: Endpoint, priv: Endpoint, g: Endpoint)
    requires MisledBy(ep, now, draw, steps, e, id, f, priv, g) && f != g
    ensures priv == g && g.port != 0
  {
    hide Runs, Final, Initial, Lead, Agree, Word;
    AgreementOverRuns(ep, now, draw, steps, e, f, id);
  }
}
