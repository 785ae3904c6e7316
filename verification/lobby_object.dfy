// The client as the program runs it: a caller-owned record whose fields and peer
// table are updated in place by a receive loop and loops over the four peers,
// proved to do what LobbyClient says.

module LobbyObject {
  import opened Basics
  import opened LobbyTypes
  import opened LobbyClient
  import LobbyCode
  import XorShift

  lemma QuadSame<T>(p: Quad<T>, q: Quad<T>)
    requires forall i: Slot :: p.At(i) == q.At(i)
    ensures p == q
  {
    assert p.At(0) == q.At(0) && p.At(1) == q.At(1) && p.At(2) == q.At(2) && p.At(3) == q.At(3);
  }

  lemma KnownSame(k: Known, l: Known)
    requires forall a: Slot, b: Slot :: k.At(a, b) == l.At(a, b)
    ensures k == l
  {
    forall a: Slot ensures k.Row(a) == l.Row(a) {
      assert forall b: Slot :: k.Row(a).At(b) == k.At(a, b) == l.At(a, b);
      QuadSame(k.Row(a), l.Row(a));
    }
    assert k.Row(0) == l.Row(0) && k.Row(1) == l.Row(1) && k.Row(2) == l.Row(2) && k.Row(3) == l.Row(3);
  }

  lemma SameAt<T>(v: T)
    ensures forall i: Slot :: Same(v).At(i) == v
  {
  }

  lemma NothingAt()
    ensures forall a: Slot, b: Slot :: !NOTHING_KNOWN.At(a, b)
  {
  }

  class Lobby {
    var stage: Stage
    var isHost: bool
    var forcedRelay: bool
    var server: Endpoint
    var privateEp: Endpoint
    var sessionId: u16
    var localSlot: Slot
    var numPlayers: u8
    var netVersion: u32
    var seed: u32
    var arenaId: u8
    var inputDelay: u8
    var beginMs: u32
    var lastSend: u32
    var rng: bv32
    var retries: u8
    var lastKeepalive: u32
    var lastStart: u32
    var startSeen: bool
    var hostStartSent: bool
    const known: array2<bool>
    const peer: array<Peer>
    var result: Option<Result>
    var code: string
    var failStage: string

    ghost predicate Valid() {
      peer.Length == 4 && known.Length0 == 4 && known.Length1 == 4
    }

    function Peers(): (q: Quad<Peer>)
      reads peer
      requires Valid()
      ensures forall i: Slot :: q.At(i) == peer[i]
    {
      Quad(peer[0], peer[1], peer[2], peer[3])
    }

    function KnownRow(a: Slot): (q: Quad<bool>)
      reads known
      requires Valid()
      ensures forall b: Slot :: q.At(b) == known[a, b]
    {
      Quad(known[a, 0], known[a, 1], known[a, 2], known[a, 3])
    }

    function KnownPairs(): (k: Known)
      reads known
      requires Valid()
      ensures forall a: Slot, b: Slot :: k.At(a, b) == known[a, b]
    {
      Known(KnownRow(0), KnownRow(1), KnownRow(2), KnownRow(3))
    }

    /** The record as LobbyClient sees it. */
    function Value(): (c: Client)
      reads this, peer, known
      requires Valid()
    {
      Client(stage, isHost, forcedRelay, server, privateEp, sessionId, localSlot, numPlayers, netVersion,
             seed, arenaId, inputDelay, beginMs, lastSend, rng, retries, lastKeepalive, lastStart,
             startSeen, hostStartSent, KnownPairs(), Peers(), result, code, failStage)
    }

    /** What client_init leaves. */
    predicate IsBlank(now: u32, draw: bv32, home: Endpoint, own: Endpoint, version: u32)
      reads this, peer, known
      requires Valid()
    {
      && stage == Stage.Idle && !isHost && !forcedRelay && server == home && privateEp == own && netVersion == version
      && sessionId == 0 && localSlot == 0 && numPlayers == 0 && seed == 0 && arenaId == 0 && inputDelay == 0
      && beginMs == now && lastSend == now && rng == (if draw != 0 then draw else 1)
      && retries == 0 && lastKeepalive == 0 && lastStart == 0 && !startSeen && !hostStartSent
      && result == None && code == "" && failStage == ""
      && (forall i: Slot :: peer[i] == NO_PEER) && (forall i: Slot, j: Slot :: !known[i, j])
    }

    /** client_init. */
    constructor (now: u32, draw: bv32, home: Endpoint, own: Endpoint, version: u32)
      ensures Valid() && fresh(peer) && fresh(known) && IsBlank(now, draw, home, own, version)
    {
      stage, isHost, forcedRelay, server, privateEp, netVersion := Stage.Idle, false, false, home, own, version;
      sessionId, localSlot, numPlayers, seed, arenaId, inputDelay := 0, 0, 0, 0, 0, 0;
      beginMs, lastSend, retries, lastKeepalive, lastStart := now, now, 0, 0, 0;
      rng := if draw != 0 then draw else 1;
      startSeen, hostStartSent, result, code, failStage := false, false, None, "", "";
      known := new bool[4, 4]((_, _) => false);
      peer := new Peer[4](_ => NO_PEER);
    }

    lemma BlankIs(now: u32, draw: bv32, home: Endpoint, own: Endpoint, version: u32)
      requires Valid() && IsBlank(now, draw, home, own, version)
      ensures Value() == Blank(now, draw, home, own, version)
    {
      hide Quad.At, Known.At, KnownPairs, KnownRow, Peers;
      SameAt(NO_PEER);
      NothingAt();
      QuadSame(Peers(), Same(NO_PEER));
      KnownSame(KnownPairs(), NOTHING_KNOWN);
    }

    /** lobby_host_begin, after client_init. */
    method BeginHost(ghost now: u32, ghost draw: bv32, p: StartParams) returns (r: Option<seq<Out>>)
      requires Valid() && IsBlank(now, draw, server, privateEp, netVersion)
      modifies this
      ensures match HostBegin(now, draw, old(server), old(privateEp), old(netVersion), p)
        case None => r.None? && Value() == old(Value())
        case Some(q) => r == Some(q.1) && Value() == q.0
    {
      hide KnownPairs, KnownRow, Peers, Blank, IsBlank;
      BlankIs(now, draw, server, privateEp, netVersion);
      if p.numPlayers < 2 || p.numPlayers > 4 {
        return None;
      }
      isHost := true;
      Adopt(p);
      stage := Registering;
      r := Some([HostReqOf(Value())]);
    }

    /** lobby_join_begin, after client_init with the server the code names. */
    method BeginJoin(ghost now: u32, ghost draw: bv32, id: u16, ghost text: string) returns (out: seq<Out>)
      requires Valid() && IsBlank(now, draw, server, privateEp, netVersion)
      requires LobbyCode.Decode(text) == Some((server, id))
      modifies this
      ensures JoinBegin(now, draw, old(privateEp), old(netVersion), text) == Some((Value(), out))
    {
      hide KnownPairs, KnownRow, Peers, LobbyCode.Decode, Blank, IsBlank;
      BlankIs(now, draw, server, privateEp, netVersion);
      sessionId := id;
      stage := Joining;
      out := [JoinReqOf(Value())];
    }

    // ------------------------------------------------------- the predicates

    method EveryPeerPresent() returns (all: bool)
      requires Valid()
      ensures all == AllPeersPresent(Value())
    {
      hide KnownPairs, KnownRow, Peers;
      if numPlayers == 0 {
        return false;
      }
      var i := 0;
      while i < numPlayers && i < 4
        invariant 0 <= i <= 4 && forall k: Slot :: k < i ==> peer[k].present
      {
        if !peer[i].present {
          return false;
        }
        i := i + 1;
      }
      all := true;
    }

    method EveryLocalRoute() returns (all: bool)
      requires Valid()
      ensures all == LocalRoutesDecided(Value())
    {
      hide KnownPairs, KnownRow, Peers;
      if numPlayers == 0 {
        return false;
      }
      var i := 0;
      while i < numPlayers && i < 4
        invariant 0 <= i <= 4 && forall k: Slot :: k < i && k != localSlot ==> peer[k].route >= 0
      {
        if i != localSlot && peer[i].route < 0 {
          return false;
        }
        i := i + 1;
      }
      all := true;
    }

    method EveryPair() returns (all: bool)
      requires Valid()
      ensures all == AllPairsDecided(Value())
    {
      hide KnownPairs, KnownRow, Peers;
      if numPlayers < 2 {
        return false;
      }
      var a := 0;
      while a < numPlayers && a < 4
        invariant 0 <= a <= 4
        invariant forall x: Slot, y: Slot :: x < a && x < y < numPlayers ==> known[x, y]
      {
        var b := a + 1;
        while b < numPlayers && b < 4
          invariant a < b <= 4 + a
          invariant forall y: Slot :: a < y < b ==> known[a, y]
        {
          if !known[a, b] {
            return false;
          }
          b := b + 1;
        }
        a := a + 1;
      }
      all := true;
    }

    // --------------------------------------------------------------- receive

    /** next_rng. */
    method Draw() returns (x: bv32)
      requires Valid()
      modifies this`rng
      ensures x == rng == NextRng(old(Value()))
    {
      hide XorShift.Next, KnownPairs, KnownRow, Peers;
      x := XorShift.Next(if rng != 0 then rng else 1);
      rng := x;
    }

    method HearHostResp(id: u16)
      requires Valid()
      modifies this, peer
      ensures Value() == OnHostResp(old(Value()), id)
    {
      hide LobbyCode.Encode, Quad.At, Quad.With, KnownPairs, KnownRow, Peers;
      if stage != Registering || id == 0 {
        return;
      }
      sessionId := id;
      code := LobbyCode.Encode(server, sessionId);
      localSlot := 0;
      Arrive();
    }

    method HearJoinResp(slot: u8, np: u8)
      requires Valid()
      modifies this, peer
      ensures Value() == OnJoinResp(old(Value()), slot, np)
    {
      hide KnownPairs, KnownRow, Peers;
      if stage != Joining || slot >= 4 || np < 2 || np > 4 {
        return;
      }
      localSlot := slot;
      numPlayers := np;
      Arrive();
    }

    /** The client knows its slot: it is present there, and waits for the others. */
    method Arrive()
      requires Valid()
      modifies this`retries, this`stage, peer
      ensures var c := old(Value());
        Value() == c.(peer := c.peer.With(localSlot, c.peer.At(localSlot).(present := true)),
                      retries := 0, stage := WaitingPeers)
    {
      hide KnownPairs, KnownRow, Peers, Quad.At, Quad.With;
      ghost var c := Value();
      peer[localSlot] := peer[localSlot].(present := true);
      QuadSame(Peers(), c.peer.With(localSlot, c.peer.At(localSlot).(present := true)));
      retries := 0;
      stage := WaitingPeers;
    }

    method HearReject(reason: u8)
      requires Valid()
      modifies this
      ensures Value() == if old(stage) != Joining && old(stage) != Registering then old(Value())
                         else Fail(old(Value()), "REJECTED:" + RejectName(reason))
    {
      hide KnownPairs, KnownRow, Peers;
      if stage == Joining || stage == Registering {
        failStage := "REJECTED:" + RejectName(reason);
        stage := Failed;
      }
    }

    /** Endpoints are always refreshed; the first introduction also draws the nonce. */
    method HearIntro(now: u32, slot: u8, pub: Endpoint, priv: Endpoint)
      requires Valid()
      modifies this`rng, peer
      ensures Value() == OnPeerIntro(old(Value()), now, slot, pub, priv)
    {
      hide KnownPairs, KnownRow, Peers, XorShift.Next, Quad.At, Quad.With;
      if Order(stage) < Order(Registering) || Order(stage) > Order(AwaitingStart) {
        return;
      }
      if slot >= 4 || slot == localSlot {
        return;
      }
      peer[slot] := peer[slot].(pub := pub, priv := priv);
      if !peer[slot].present {
        var x := Draw();
        peer[slot] := peer[slot].(present := true, route := -1, nonce := x, punchBegin := now,
                                  lastPunch := Elapsed(now, PUNCH_PERIOD_MS));
      }
      QuadSame(Peers(), OnPeerIntro(old(Value()), now, slot, pub, priv).peer);
    }

    /** A probe is answered to where it came from, whatever we were told. */
    method HearPunch(from: Endpoint, id: u16, nonce: u32) returns (out: seq<Out>)
      requires Valid()
      ensures out == OnPunch(Value(), from, id, nonce)
    {
      hide KnownPairs, KnownRow, Peers;
      if id != sessionId || sessionId == 0 {
        return [];
      }
      out := [Out(from, PunchAck(sessionId, localSlot, nonce))];
    }

    method HearPunchAck(now: u32, from: Endpoint, id: u16, s: u8, nonce: u32) returns (out: seq<Out>)
      requires Valid()
      modifies peer
      ensures (Value(), out) == OnPunchAck(old(Value()), now, from, id, s, nonce)
    {
      hide Word, ReportOf, Quad.At, Quad.With, KnownPairs, KnownRow, Peers;
      out := [];
      if id != sessionId || sessionId == 0 || s >= 4 || s == localSlot {
        return;
      }
      if !peer[s].present || peer[s].nonce == 0 || nonce != Word(peer[s].nonce) || peer[s].acked {
        return;
      }
      peer[s] := peer[s].(acked := true, chosen := from);
      out := [ReportOf(Value(), s, 1)];
      SameReport(old(Value()), Value(), s, 1);
      peer[s] := peer[s].(reported := true, lastReport := now);
      QuadSame(Peers(), OnPunchAck(old(Value()), now, from, id, s, nonce).0.peer);
    }

    method HearPairRoute(a: u8, b: u8, route: u8)
      requires Valid()
      modifies peer, known
      ensures Value() == OnPairRoute(old(Value()), a, b, route)
    {
      hide Known.Mark, Known.At, Quad.At, Quad.With, KnownPairs, KnownRow, Peers;
      if a >= 4 || b >= 4 || a == b || route > ROUTE_RELAY {
        return;
      }
      known[a, b] := true;
      known[b, a] := true;
      if a == localSlot {
        peer[b] := peer[b].(route := route);
      }
      if b == localSlot {
        peer[a] := peer[a].(route := route);
      }
      QuadSame(Peers(), OnPairRoute(old(Value()), a, b, route).peer);
      KnownSame(KnownPairs(), OnPairRoute(old(Value()), a, b, route).known);
    }

    /** The host refuses an echo that differs from what it sent; a joiner takes the
        match from it. Every START is acknowledged. */
    method HearStart(p: StartParams) returns (out: seq<Out>)
      requires Valid()
      modifies this
      ensures (Value(), out) == OnStart(old(Value()), p)
    {
      hide KnownPairs, KnownRow, Peers;
      out := [];
      if Order(stage) < Order(WaitingPeers) || Order(stage) > Order(AwaitingStart) {
        return;
      }
      if isHost {
        if p.seed != seed || p.arenaId != arenaId || p.numPlayers != numPlayers || p.inputDelay != inputDelay {
          failStage := "START_ECHO";
          stage := Failed;
          return;
        }
      } else {
        if p.numPlayers < 2 || p.numPlayers > 4 {
          return;
        }
        Adopt(p);
      }
      startSeen := true;
      out := [Out(server, StartAck(sessionId, localSlot))];
    }

    /** The match parameters of a START. */
    method Adopt(p: StartParams)
      requires Valid()
      modifies this`seed, this`arenaId, this`numPlayers, this`inputDelay
      ensures Value() == old(Value()).(seed := p.seed, arenaId := p.arenaId, numPlayers := p.numPlayers,
                                       inputDelay := p.inputDelay)
    {
      hide KnownPairs, KnownRow, Peers;
      seed := p.seed;
      arenaId := p.arenaId;
      numPlayers := p.numPlayers;
      inputDelay := p.inputDelay;
    }

    /** handle_msg. */
    method HandleMsg(now: u32, from: Endpoint, m: Msg) returns (out: seq<Out>)
      requires Valid()
      modifies this, peer, known
      ensures (Value(), out) == Receive(old(Value()), now, from, m)
    {
      hide OnHostResp, OnJoinResp, OnPeerIntro, OnPunch, OnPunchAck, OnPairRoute, OnStart, RejectName, KnownPairs,
        KnownRow, Peers;
      out := [];
      match m {
        case HostResp(id) => HearHostResp(id);
        case JoinResp(slot, np) => HearJoinResp(slot, np);
        case Reject(reason) => HearReject(reason);
        case PeerIntro(slot, pub, priv) => HearIntro(now, slot, pub, priv);
        case Punch(id, _, nonce) => out := HearPunch(from, id, nonce);
        case PunchAck(id, slot, nonce) => out := HearPunchAck(now, from, id, slot, nonce);
        case PairRoute(a, b, route) => HearPairRoute(a, b, route);
        case Start(p) => out := HearStart(p);
        case _ =>
      }
    }

    /** The bounded receive loop. */
    method DrainInbox(now: u32, inbox: seq<In>) returns (out: seq<Out>)
      requires Valid()
      modifies this, peer, known
      ensures (Value(), out) == Drain(old(Value()), now, inbox)
    {
      hide Receive, Value;
      out := [];
      var i := 0;
      StageIs();
      while i < |inbox| && stage != Failed
        invariant 0 <= i <= |inbox| && stage == Value().stage
        invariant Drain(Value(), now, inbox[i..]).0 == Drain(old(Value()), now, inbox).0
        invariant out + Drain(Value(), now, inbox[i..]).1 == Drain(old(Value()), now, inbox).1
        decreases |inbox| - i
      {
        assert inbox[i..][0] == inbox[i] && inbox[i..][1..] == inbox[i + 1..];
        var more := HandleMsg(now, inbox[i].from, inbox[i].msg);
        out := out + more;
        i := i + 1;
        StageIs();
      }
      assert Drain(Value(), now, inbox[i..]) == (Value(), []) && out + [] == out;
    }

    lemma StageIs()
      requires Valid()
      ensures stage == Value().stage && numPlayers == Value().numPlayers && localSlot == Value().localSlot
    {
    }

    // ----------------------------------------------------------------- duties

    /** enter_punching. */
    method Enter(now: u32)
      requires Valid()
      modifies this`stage, peer
      ensures Value() == EnterPunching(old(Value()), now)
    {
      hide Aim, KnownPairs, KnownRow, Peers;
      stage := Punching;
      var i := 0;
      while i < numPlayers && i < 4
        invariant 0 <= i <= 4 && AimFrom(Value(), now, i) == EnterPunching(old(Value()), now)
        decreases 4 - i
      {
        if i != localSlot {
          ghost var was := Value();
          peer[i] := Aim(peer[i], now);
          QuadSame(Peers(), was.peer.With(i, Aim(was.peer.At(i), now)));
          assert Value() == was.(peer := was.peer.With(i, Aim(was.peer.At(i), now)));
        }
        i := i + 1;
      }
    }

    /** One peer of the PUNCHING duty: arbitrated, reported, given up or probed. */
    method PunchOne(now: u32, i: Slot) returns (out: seq<Out>)
      requires Valid()
      modifies peer
      ensures (Value(), out) == PunchPeer(old(Value()), now, i)
    {
      hide Word, ReportOf, ProbeTarget, Quad.At, Quad.With, KnownPairs, KnownRow, Peers;
      out := [];
      if i == localSlot || peer[i].route >= 0 {
        return;
      }
      ghost var was := Value();
      if peer[i].reported {
        if Elapsed(now, peer[i].lastReport) >= RETRY_MS {
          peer[i] := peer[i].(lastReport := now);
          out := [ReportOf(Value(), i, if peer[i].acked then 1 else 0)];
          SameReport(was, Value(), i, if peer[i].acked then 1 else 0);
        }
      } else if forcedRelay || Elapsed(now, peer[i].punchBegin) > PUNCH_BUDGET_MS {
        out := [ReportOf(Value(), i, 0)];
        peer[i] := peer[i].(reported := true, lastReport := now);
      } else if Elapsed(now, peer[i].lastPunch) >= PUNCH_PERIOD_MS {
        var dest := ProbeTarget(peer[i]);
        peer[i] := peer[i].(punchAlt := !peer[i].punchAlt);
        if dest.port != 0 {
          peer[i] := peer[i].(lastPunch := now);
          out := [Out(dest, Punch(sessionId, localSlot, Word(peer[i].nonce)))];
        }
      }
      QuadSame(Peers(), PunchPeer(was, now, i).0.peer);
    }

    method PunchAll(now: u32) returns (out: seq<Out>)
      requires Valid()
      modifies peer
      ensures (Value(), out) == PunchFrom(old(Value()), now, 0)
    {
      hide PunchPeer, Value;
      out := [];
      var i := 0;
      StageIs();
      while i < numPlayers && i < 4
        invariant 0 <= i <= 4 && numPlayers == Value().numPlayers
        invariant PunchFrom(Value(), now, i).0 == PunchFrom(old(Value()), now, 0).0
        invariant out + PunchFrom(Value(), now, i).1 == PunchFrom(old(Value()), now, 0).1
        decreases 4 - i
      {
        var more := PunchOne(now, i);
        out := out + more;
        i := i + 1;
        StageIs();
      }
      assert PunchFrom(Value(), now, i) == (Value(), []) && out + [] == out;
    }

    /** The switch of lobby_poll. */
    method Duty(now: u32) returns (out: seq<Out>)
      requires Valid()
      modifies this, peer
      ensures (Value(), out) == StageDuty(old(Value()), now)
    {
      hide AllPeersPresent, EnterPunching, PunchFrom, KnownPairs, KnownRow, Peers;
      out := [];
      if stage == Punching {
        out := PunchAll(now);
      } else if stage == WaitingPeers {
        var all := EveryPeerPresent();
        if all {
          Enter(now);
        } else if Elapsed(now, lastSend) >= RETRY_MS {
          lastSend := now;
          out := [if isHost then HostReqOf(Value()) else JoinReqOf(Value())];
        }
      } else if stage == Registering || stage == Joining {
        out := Retry(now);
      }
    }

    /** The request again, a bounded number of times. */
    method Retry(now: u32) returns (out: seq<Out>)
      requires Valid() && (stage == Registering || stage == Joining)
      modifies this`lastSend, this`retries, this`failStage, this`stage
      ensures (Value(), out) == StageDuty(old(Value()), now)
    {
      hide AllPeersPresent, EnterPunching, PunchFrom, KnownPairs, KnownRow, Peers, StageName;
      out := [];
      if Elapsed(now, lastSend) >= RETRY_MS {
        lastSend := now;
        retries := (retries + 1) % 0x100;
        if retries > RETRY_MAX {
          FailHere();
        } else {
          out := [if stage == Registering then HostReqOf(Value()) else JoinReqOf(Value())];
        }
      }
    }

    /** fail_here. */
    method FailHere()
      requires Valid()
      modifies this`failStage, this`stage
      ensures Value() == Fail(old(Value()), StageName(old(Value()).stage))
    {
      hide StageName, KnownPairs, KnownRow, Peers;
      failStage := StageName(stage);
      stage := Failed;
    }

    method Offer(now: u32) returns (out: seq<Out>)
      requires Valid()
      modifies this`hostStartSent, this`lastStart
      ensures (Value(), out) == HostDuty(old(Value()), now)
    {
      hide AllPairsDecided, KnownPairs, KnownRow, Peers;
      out := [];
      var all := EveryPair();
      if isHost && sessionId != 0 && !startSeen && Order(stage) >= Order(WaitingPeers) && all
         && (!hostStartSent || Elapsed(now, lastStart) >= RETRY_MS)
      {
        hostStartSent := true;
        lastStart := now;
        out := [Out(server, Msg.Start(StartParams(seed, arenaId, numPlayers, inputDelay)))];
      }
    }

    /** fill_result. */
    method Fill()
      requires Valid()
      modifies this`result
      ensures Value() == old(Value()).(result := Some(FillResult(old(Value()))))
    {
      hide KnownPairs, KnownRow, Peers;
      var route := Same(NoRoute);
      var i := 0;
      while i < 4
        invariant 0 <= i <= 4
        invariant forall k: Slot :: route.At(k) == if k < i then RouteTo(Value(), k) else NoRoute
      {
        if i != localSlot && i < numPlayers {
          route := route.With(i, if peer[i].route == ROUTE_DIRECT then Direct(peer[i].chosen) else Relayed);
        }
        i := i + 1;
      }
      QuadSame(route, FillResult(Value()).route);
      result := Some(Result(localSlot, numPlayers, arenaId, inputDelay, sessionId, seed, route, server));
    }

    /** All local routes in: READY with a START, else wait for one. */
    method Complete()
      requires Valid()
      modifies this`result, this`stage
      ensures Value() == Finish(old(Value()))
    {
      hide LocalRoutesDecided, FillResult, KnownPairs, KnownRow, Peers;
      if stage == Punching || stage == AwaitingStart {
        var all := EveryLocalRoute();
        if all {
          if startSeen {
            Fill();
            stage := Ready;
          } else {
            stage := AwaitingStart;
          }
        }
      }
    }

    method Keep(now: u32) returns (out: seq<Out>)
      requires Valid()
      modifies this`lastKeepalive
      ensures (Value(), out) == KeepDuty(old(Value()), now)
    {
      hide KnownPairs, KnownRow, Peers;
      out := [];
      if sessionId == 0 || Order(stage) < Order(WaitingPeers) || Order(stage) > Order(AwaitingStart) {
        return;
      }
      if lastKeepalive == 0 {
        lastKeepalive := now;
      } else if Elapsed(now, lastKeepalive) >= KEEPALIVE_MS {
        lastKeepalive := now;
        out := [Out(server, Keepalive(sessionId, localSlot))];
      }
    }

    /** lobby_poll. */
    method PollOnce(now: u32, inbox: seq<In>) returns (out: seq<Out>)
      requires Valid()
      modifies this, peer, known
      ensures (Value(), out) == Poll(old(Value()), now, inbox)
    {
      hide Drain, StageDuty, HostDuty, Finish, KeepDuty, StageName, KnownPairs, KnownRow, Peers;
      out := [];
      if stage == Ready || stage == Failed || stage == Stage.Idle {
        return;
      }
      out := DrainInbox(now, if |inbox| <= DRAIN_MAX then inbox else inbox[..DRAIN_MAX]);
      if stage == Failed {
        return;
      }
      if Elapsed(now, beginMs) > TIMEOUT_MS {
        FailHere();
        assert out + [] == out;
        return;
      }
      var out3 := Duty(now);
      if stage == Failed {
        return out + out3;
      }
      var out4 := Offer(now);
      Complete();
      var out6 := Keep(now);
      return out + (out3 + out4 + out6);
    }

    /** lobby_post_poll on the ring's packets, in order. */
    method PostPoll(inbox: seq<In>) returns (out: seq<Out>)
      requires Valid()
      ensures out == PostAll(Value(), inbox)
    {
      hide PostReceive, KnownPairs, KnownRow, Peers;
      out := [];
      var i := 0;
      while i < |inbox|
        invariant 0 <= i <= |inbox| && out + PostAll(Value(), inbox[i..]) == PostAll(Value(), inbox)
      {
        assert inbox[i..][0] == inbox[i] && inbox[i..][1..] == inbox[i + 1..];
        var more := PostOne(inbox[i]);
        out := out + more;
        i := i + 1;
      }
    }

    method PostOne(m: In) returns (out: seq<Out>)
      requires Valid()
      ensures out == PostReceive(Value(), m.from, m.msg)
    {
      hide KnownPairs, KnownRow, Peers;
      out := [];
      if stage == Ready {
        if m.msg.Start? {
          out := [StartAckOf(Value())];
        } else if m.msg.Punch? && m.msg.sessionId == sessionId {
          out := [Out(m.from, PunchAck(sessionId, localSlot, m.msg.nonce))];
        }
      }
    }
  }

  lemma SameReport(c: Client, d: Client, other: Slot, ok: u8)
    requires d.server == c.server && d.sessionId == c.sessionId && d.localSlot == c.localSlot
    ensures ReportOf(d, other, ok) == ReportOf(c, other, ok)
  {
  }

  function PostAll(c: Client, inbox: seq<In>): seq<Out> {
    if inbox == [] then [] else PostReceive(c, inbox[0].from, inbox[0].msg) + PostAll(c, inbox[1..])
  }
}
