// The server as the program runs it: fixed tables updated in place, found by
// scanning loops. Each method is proved to do what its function in Rendezvous says.

module RendezvousServer {
  import opened Basics
  import opened LobbyTypes
  import opened Scan
  import opened R = Rendezvous
  import XorShift

  /** What the method's loops over four slots establish. */
  method SlotOf(s: Session, from: Endpoint) returns (r: Option<nat>)
    ensures r == PeerOf(s, from)
  {
    var i := 0;
    while i < 4
      invariant 0 <= i <= 4
      invariant forall k: Slot :: k < i ==> !Owns(s.peers.At(k), from)
    {
      if Owns(s.peers.At(i), from) {
        return Some(i);
      }
      i := i + 1;
    }
    r := None;
  }

  method FreeSlotOf(s: Session) returns (r: Option<nat>)
    ensures r == FirstSlotFrom(s.peers, (p: Peer) => !p.used, 0)
  {
    var i := 0;
    while i < 4
      invariant 0 <= i <= 4
      invariant forall k: Slot :: k < i ==> s.peers.At(k).used
    {
      if !s.peers.At(i).used {
        return Some(i);
      }
      i := i + 1;
    }
    r := None;
  }

  lemma Regroup<T>(a: seq<T>, b: seq<T>, c: seq<T>)
    ensures a + (b + c) == (a + b) + c && [] + a == a && a + [] == a
  {
  }

  /** One more slot of each fan-out. */
  lemma FanSteps(s: Session, who: Slot, unacked: bool, m: Msg, i: Slot)
    ensures FanIntro(s, who, i) ==
      (if i != who && s.peers.At(i).used then [Intro(s, who, i), Intro(s, i, who)] else []) + FanIntro(s, who, i + 1)
    ensures ResendIntros(s, who, i) == (if i != who && s.peers.At(i).used then [Intro(s, i, who)] else [])
      + ResendIntros(s, who, i + 1)
    ensures s.start.Some? ==>
      var first := if s.peers.At(i).used && !(unacked && s.peers.At(i).startAcked)
                   then [Out(s.peers.At(i).publicEp, Start(s.start.value))] else [];
      FanStart(s, unacked, i) == first + FanStart(s, unacked, i + 1)
    ensures FanRoute(s, m, i) == (if s.peers.At(i).used then [Out(s.peers.At(i).publicEp, m)] else [])
      + FanRoute(s, m, i + 1)
  {
    hide Quad.At;
  }

  lemma FanEnds(s: Session, who: Slot, unacked: bool, m: Msg)
    ensures FanIntro(s, who, 4) == [] && ResendIntros(s, who, 4) == [] && FanStart(s, unacked, 4) == []
      && FanRoute(s, m, 4) == []
    ensures s.start.None? ==> FanStart(s, unacked, 0) == []
  {
  }

  method FanIntros(s: Session, newcomer: Slot) returns (out: seq<Out>)
    ensures out == FanIntro(s, newcomer, 0)
  {
    hide FanIntro;
    out := [];
    FanEnds(s, newcomer, false, Reject(0));
    Regroup(FanIntro(s, newcomer, 0), [], []);
    var i := 0;
    while i < 4
      invariant 0 <= i <= 4 && out + FanIntro(s, newcomer, i) == FanIntro(s, newcomer, 0)
    {
      ghost var step := if i != newcomer && s.peers.At(i).used then [Intro(s, newcomer, i), Intro(s, i, newcomer)]
        else [];
      FanSteps(s, newcomer, false, Reject(0), i);
      Regroup(out, step, FanIntro(s, newcomer, i + 1));
      if i != newcomer && s.peers.At(i).used {
        out := out + [Intro(s, newcomer, i), Intro(s, i, newcomer)];
      }
      i := i + 1;
    }
    Regroup(out, [], []);
  }

  method ResendTo(s: Session, who: Slot) returns (out: seq<Out>)
    ensures out == ResendIntros(s, who, 0)
  {
    hide ResendIntros;
    out := [];
    FanEnds(s, who, false, Reject(0));
    Regroup(ResendIntros(s, who, 0), [], []);
    var i := 0;
    while i < 4
      invariant 0 <= i <= 4 && out + ResendIntros(s, who, i) == ResendIntros(s, who, 0)
    {
      ghost var step := if i != who && s.peers.At(i).used then [Intro(s, i, who)] else [];
      FanSteps(s, who, false, Reject(0), i);
      Regroup(out, step, ResendIntros(s, who, i + 1));
      if i != who && s.peers.At(i).used {
        out := out + [Intro(s, i, who)];
      }
      i := i + 1;
    }
    Regroup(out, [], []);
  }

  method FanStarts(s: Session, onlyUnacked: bool) returns (out: seq<Out>)
    ensures out == FanStart(s, onlyUnacked, 0)
  {
    hide FanStart;
    out := [];
    FanEnds(s, 0, onlyUnacked, Reject(0));
    Regroup(FanStart(s, onlyUnacked, 0), [], []);
    if s.start.None? {
      return;
    }
    var i := 0;
    while i < 4
      invariant 0 <= i <= 4 && out + FanStart(s, onlyUnacked, i) == FanStart(s, onlyUnacked, 0)
    {
      ghost var step := if s.peers.At(i).used && !(onlyUnacked && s.peers.At(i).startAcked)
                        then [Out(s.peers.At(i).publicEp, Start(s.start.value))] else [];
      FanSteps(s, 0, onlyUnacked, Reject(0), i);
      Regroup(out, step, FanStart(s, onlyUnacked, i + 1));
      if s.peers.At(i).used && !(onlyUnacked && s.peers.At(i).startAcked) {
        out := out + [Out(s.peers.At(i).publicEp, Start(s.start.value))];
      }
      i := i + 1;
    }
    Regroup(out, [], []);
  }

  method FanRoutes(s: Session, m: Msg) returns (out: seq<Out>)
    ensures out == FanRoute(s, m, 0)
  {
    hide FanRoute;
    out := [];
    FanEnds(s, 0, false, m);
    Regroup(FanRoute(s, m, 0), [], []);
    var i := 0;
    while i < 4
      invariant 0 <= i <= 4 && out + FanRoute(s, m, i) == FanRoute(s, m, 0)
    {
      ghost var step := if s.peers.At(i).used then [Out(s.peers.At(i).publicEp, m)] else [];
      FanSteps(s, 0, false, m, i);
      Regroup(out, step, FanRoute(s, m, i + 1));
      if s.peers.At(i).used {
        out := out + [Out(s.peers.At(i).publicEp, m)];
      }
      i := i + 1;
    }
    Regroup(out, [], []);
  }

  method EveryoneAcked(ps: Quad<Peer>) returns (all: bool)
    ensures all == AllAcked(ps)
  {
    var i := 0;
    while i < 4
      invariant 0 <= i <= 4
      invariant forall k: Slot :: k < i && ps.At(k).used ==> ps.At(k).startAcked
    {
      if ps.At(i).used && !ps.At(i).startAcked {
        return false;
      }
      i := i + 1;
    }
    all := true;
  }

  method AnyRelay(s: Session) returns (found: bool)
    ensures found == HasRelay(s)
  {
    found := false;
    var a := 0;
    while a < 4 && !found
      invariant 0 <= a <= 4 && (found ==> HasRelay(s))
      invariant !found ==> forall x: Slot, b: Slot :: x < a ==>
        !(s.pairs.At(x, b).routeSent && s.pairs.At(x, b).route == ROUTE_RELAY)
    {
      var b := 0;
      while b < 4
        invariant 0 <= b <= 4
        invariant forall y: Slot :: y < b ==> !(s.pairs.At(a, y).routeSent && s.pairs.At(a, y).route == ROUTE_RELAY)
      {
        if s.pairs.At(a, b).routeSent && s.pairs.At(a, b).route == ROUTE_RELAY {
          found := true;
          break;
        }
        b := b + 1;
      }
      a := a + 1;
    }
  }

  lemma {:induction false} FirstIs<T>(s: seq<T>, p: T -> bool, i: nat, r: nat)
    requires i <= r < |s| && p(s[r]) && forall j :: i <= j < r ==> !p(s[j])
    ensures FirstFrom(s, p, i) == Some(r)
    decreases r - i
  {
    if i < r {
      FirstIs(s, p, i + 1, r);
    }
  }

  lemma {:induction false} NoneIs<T>(s: seq<T>, p: T -> bool, i: nat)
    requires forall j :: i <= j < |s| ==> !p(s[j])
    ensures FirstFrom(s, p, i) == None
    decreases |s| - i
  {
    if i < |s| {
      NoneIs(s, p, i + 1);
    }
  }

  lemma TickUnrolls(sv: R.Server, now: u32, i: nat)
    requires i < |sv.sessions|
    ensures var (s, out) := TickSession(sv.sessions[i], now);
      var rest := TickFrom(sv.(sessions := sv.sessions[i := s]), now, i + 1);
      TickFrom(sv, now, i) == (rest.0, out + rest.1)
  {
    hide TickSession;
  }

  class Server {
    const sessions: array<Session>
    const rate: array<Bucket>
    var rng: bv32
    var relayForwards: u32

    ghost predicate Valid()
      reads this
    {
      sessions.Length == MAX_SESSIONS && rate.Length == RATE_BUCKETS
    }

    /** The abstract server this object is. */
    ghost function Value(): (v: R.Server)
      reads this, sessions, rate
      requires Valid()
      ensures |v.rate| == RATE_BUCKETS && |v.sessions| == MAX_SESSIONS
    {
      R.Server(sessions[..], rate[..], rng, relayForwards)
    }

    constructor (now: u32, seed: bv32)
      ensures Valid() && fresh(sessions) && fresh(rate) && Value() == Init(now, seed)
    {
      sessions := new Session[MAX_SESSIONS](_ => CLEARED);
      rate := new Bucket[RATE_BUCKETS](_ => Bucket(RATE_BURST * 1000, now));
      rng := if seed == 0 then 1 else seed;
      relayForwards := 0;
      new;
      assert sessions[..] == seq(MAX_SESSIONS, _ => CLEARED);
      assert rate[..] == seq(RATE_BUCKETS, _ => Bucket(RATE_BURST * 1000, now));
    }

    method FindFirst(p: Session -> bool) returns (r: Option<nat>)
      requires Valid()
      ensures r == First(sessions[..], p)
    {
      var i := 0;
      while i < MAX_SESSIONS
        invariant 0 <= i <= MAX_SESSIONS
        invariant forall j :: 0 <= j < i ==> !p(sessions[j])
      {
        if p(sessions[i]) {
          FirstIs(sessions[..], p, 0, i);
          return Some(i);
        }
        i := i + 1;
      }
      NoneIs(sessions[..], p, 0);
      r := None;
    }

    method Find(id: u16) returns (r: Option<nat>)
      requires Valid()
      ensures r == FindSession(sessions[..], id)
    {
      if id == 0 {
        return None;
      }
      r := FindFirst((s: Session) => HasId(s, id));
    }

    method TakeToken(now: u32, ip: u32) returns (ok: bool)
      requires Valid()
      modifies rate
      ensures var k := ip % RATE_BUCKETS;
        var r := RateTake(old(rate[k]), now);
        rate[..] == old(rate[..])[k := r.0] && ok == r.1
    {
      var k := ip % RATE_BUCKETS;
      var b := rate[k];
      var cap := RATE_BURST * 1000;
      var dt := Elapsed(now, b.lastMs);
      b := b.(lastMs := now);
      if dt > cap / RATE_PER_SEC {
        b := b.(tokensMilli := cap);
      } else {
        b := b.(tokensMilli := Min(b.tokensMilli + dt * RATE_PER_SEC, cap));
      }
      if b.tokensMilli < 1000 {
        rate[k] := b;
        return false;
      }
      rate[k] := b.(tokensMilli := b.tokensMilli - 1000);
      ok := true;
    }

    method DrawId() returns (id: Option<u16>)
      requires Valid()
      modifies this`rng
      ensures (rng, id) == PickId(old(rng), sessions[..], ID_TRIES)
    {
      var tries := 0;
      while tries < ID_TRIES
        invariant 0 <= tries <= ID_TRIES
        invariant PickId(rng, sessions[..], ID_TRIES - tries) == PickId(old(rng), sessions[..], ID_TRIES)
      {
        rng := XorShift.Next(rng);
        var cand := Candidate(rng);
        var taken := Find(cand);
        if cand != 0 && taken.None? {
          return Some(cand);
        }
        tries := tries + 1;
      }
      id := None;
    }

    method DoHostReq(now: u32, from: Endpoint, m: Msg) returns (out: seq<Out>)
      requires Valid() && m.HostReq?
      modifies this, sessions
      ensures Valid() && (Value(), out) == HandleHostReq(old(Value()), now, from, m)
    {
      hide PickId, ResendIntros;
      var again := FindFirst((s: Session) => HostsLobby(s, from));
      match again {
        case Some(i) =>
          sessions[i] := Touch(sessions[i], 0, now);
          var intros := ResendTo(sessions[i], 0);
          return [Out(from, HostResp(sessions[i].id))] + intros;
        case None =>
      }
      var free := FindFirst((s: Session) => s.phase == Free);
      if free.None? {
        return [Out(from, Reject(REJ_FULL))];
      }
      var id := DrawId();
      if id.None? {
        return [Out(from, Reject(REJ_FULL))];
      }
      sessions[free.value] := OpenSession(id.value, now, from, m);
      out := [Out(from, HostResp(id.value))];
    }

    method DoJoinReq(now: u32, from: Endpoint, m: Msg) returns (out: seq<Out>)
      requires Valid() && m.JoinReq?
      modifies sessions
      ensures (Value(), out) == Dispatch(old(Value()), now, from, m)
    {
      hide FanIntro, ResendIntros;
      var found := Find(m.sessionId);
      if found.None? {
        return [Out(from, Reject(REJ_BAD_SESSION))];
      }
      var i := found.value;
      var s := sessions[i];
      assert sessions[..] == sessions[..][i := s];
      if s.phase != Lobby {
        return [Out(from, Reject(REJ_EXPIRED))];
      }
      var existing := SlotOf(s, from);
      if existing.Some? {
        sessions[i] := Touch(s, existing.value, now);
        var intros := ResendTo(sessions[i], existing.value);
        return [Out(from, JoinResp(existing.value, s.numPlayers))] + intros;
      }
      if m.netVersion != s.netVersion {
        return [Out(from, Reject(REJ_VERSION_MISMATCH))];
      }
      if s.joined >= s.numPlayers {
        return [Out(from, Reject(REJ_FULL))];
      }
      var slot := FreeSlotOf(s);
      if slot.None? {
        return [Out(from, Reject(REJ_FULL))];
      }
      sessions[i] := Admit(s, now, from, slot.value, m.privateEp);
      var intros := FanIntros(sessions[i], slot.value);
      out := [Out(from, JoinResp(slot.value, s.numPlayers))] + intros;
    }

    method DoPunchReport(now: u32, from: Endpoint, m: Msg) returns (out: seq<Out>)
      requires Valid() && m.PunchReport?
      modifies sessions
      ensures (Value(), out) == Dispatch(old(Value()), now, from, m)
    {
      hide FanRoute, Record, Decide;
      var found := Find(m.sessionId);
      if found.None? {
        return [];
      }
      var i := found.value;
      var s := sessions[i];
      assert sessions[..] == sessions[..][i := s];
      var rep := SlotOf(s, from);
      if rep.None? || m.slotA >= 4 || m.slotB >= 4 || m.slotA == m.slotB
         || (rep.value != m.slotA && rep.value != m.slotB)
      {
        assert !ReportAccepted(s, from, m);
        return [];
      }
      var oth: Slot := if rep.value == m.slotA then m.slotB else m.slotA;
      if !s.peers.At(oth).used {
        assert !ReportAccepted(s, from, m);
        return [];
      }
      assert ReportAccepted(s, from, m);
      ghost var before := s;
      s := Record(s, now, rep.value, oth, m.ok);
      sessions[i] := s;
      assert Value() == Put(old(Value()), i, (s, [])).0;
      var a: Slot, b: Slot := Min(m.slotA, m.slotB), Max(m.slotA, m.slotB);
      assert Report(before, now, from, m) == Arbitrate(s, now, from, a, b);
      hide ReportAccepted;
      if s.pairs.At(a, b).punch < 0 || s.pairs.At(b, a).punch < 0 {
        return [];
      }
      if s.pairs.At(a, b).routeSent {
        return [Out(from, PairRoute(a, b, s.pairs.At(a, b).route))];
      }
      var route := RouteOf(s.pairs, a, b);
      sessions[i] := Decide(s, now, a, b);
      assert Value() == Put(old(Value()), i, (Decide(s, now, a, b), [])).0;
      out := FanRoutes(sessions[i], PairRoute(a, b, route));
    }

    method DoStart(now: u32, from: Endpoint, m: Msg) returns (out: seq<Out>)
      requires Valid() && m.Start?
      modifies sessions
      ensures (Value(), out) == Dispatch(old(Value()), now, from, m)
    {
      hide FanStart;
      var found := FindFirst((s: Session) => HostsLive(s, from));
      if found.None? {
        return [];
      }
      var i := found.value;
      var s := sessions[i];
      assert sessions[..] == sessions[..][i := s];
      if s.phase == Running {
        return [];
      }
      var first := s.phase == Lobby;
      s := Touch(s, 0, now);
      if first {
        s := s.(phase := Starting, started := now, lastRelay := now);
      }
      s := s.(start := Some(m.params), lastRefan := now);
      sessions[i] := s;
      out := FanStarts(s, !first);
    }

    method DoStartAck(now: u32, from: Endpoint, m: Msg)
      requires Valid() && m.StartAck?
      modifies sessions
      ensures Value() == Dispatch(old(Value()), now, from, m).0
    {
      hide AllAcked;
      var found := Find(m.sessionId);
      if found.None? {
        return;
      }
      var i := found.value;
      var s := sessions[i];
      assert sessions[..] == sessions[..][i := s];
      var p := SlotOf(s, from);
      if p.None? || m.slot != p.value {
        return;
      }
      s := Touch(s, p.value, now);
      if s.phase == Starting {
        s := s.(peers := s.peers.With(p.value, s.peers.At(p.value).(startAcked := true)));
        var all := EveryoneAcked(s.peers);
        if all {
          s := s.(phase := Running);
        }
      }
      sessions[i] := s;
    }

    method DoKeepalive(now: u32, from: Endpoint, m: Msg)
      requires Valid() && m.Keepalive?
      modifies sessions
      ensures Value() == Dispatch(old(Value()), now, from, m).0
    {
      var found := Find(m.sessionId);
      if found.None? {
        return;
      }
      var i := found.value;
      var s := sessions[i];
      assert sessions[..] == sessions[..][i := s];
      var p := SlotOf(s, from);
      if p.Some? {
        sessions[i] := Touch(s, p.value, now);
      }
    }

    method DoRelay(now: u32, from: Endpoint, m: Msg) returns (out: seq<Out>)
      requires Valid() && m.Relay?
      modifies this`relayForwards, sessions
      ensures (Value(), out) == Dispatch(old(Value()), now, from, m)
    {
      var found := Find(m.sessionId);
      if found.None? {
        return [];
      }
      var i := found.value;
      var s := sessions[i];
      if m.fromSlot >= 4 || m.toSlot >= 4 || !Owns(s.peers.At(m.fromSlot), from) || !s.peers.At(m.toSlot).used {
        return [];
      }
      sessions[i] := Touch(s, m.fromSlot, now).(lastRelay := now);
      relayForwards := (relayForwards + 1) % TWO32;
      out := [Out(s.peers.At(m.toSlot).publicEp, m)];
    }

    /** rv_handle after unpacking. */
    method Receive(now: u32, from: Endpoint, m: Msg) returns (out: seq<Out>)
      requires Valid()
      modifies this, sessions, rate
      ensures Valid() && (Value(), out) == Handle(old(Value()), now, from, m)
    {
      hide HandleHostReq, Join, Report, BeginStart, Ack, Keep, Forward, RelayAccepted, RateTake;
      if !m.Relay? {
        var ok := TakeToken(now, from.ip);
        if !ok {
          return [];
        }
      }
      out := [];
      match m {
        case HostReq(_, _, _) => out := DoHostReq(now, from, m);
        case JoinReq(_, _, _) => out := DoJoinReq(now, from, m);
        case PunchReport(_, _, _, _) => out := DoPunchReport(now, from, m);
        case Start(_) => out := DoStart(now, from, m);
        case StartAck(_, _) => DoStartAck(now, from, m);
        case Keepalive(_, _) => DoKeepalive(now, from, m);
        case Relay(_, _, _, _) => out := DoRelay(now, from, m);
        case _ =>
      }
    }

    /** rv_tick. */
    method Tick(now: u32) returns (out: seq<Out>)
      requires Valid()
      modifies sessions
      ensures (Value(), out) == R.Tick(old(Value()), now)
    {
      hide TickSession;
      out := [];
      var i := 0;
      while i < MAX_SESSIONS
        invariant 0 <= i <= MAX_SESSIONS
        invariant TickFrom(Value(), now, i).0 == R.Tick(old(Value()), now).0
        invariant out + TickFrom(Value(), now, i).1 == R.Tick(old(Value()), now).1
      {
        TickUnrolls(Value(), now, i);
        var more := TickOne(now, i);
        out := out + more;
        i := i + 1;
      }
      assert TickFrom(Value(), now, i) == (Value(), []) && out + [] == out;
    }

    method TickOne(now: u32, i: nat) returns (out: seq<Out>)
      requires Valid() && i < MAX_SESSIONS
      modifies sessions
      ensures sessions[..] == old(sessions[..])[i := TickSession(old(sessions[i]), now).0]
      ensures out == TickSession(old(sessions[i]), now).1
    {
      hide HasRelay, FanStart;
      out := [];
      var s := sessions[i];
      assert sessions[..] == sessions[..][i := s];
      if s.phase == Free {
        return;
      }
      if s.phase == Lobby {
        if Elapsed(now, s.lastActivity) > LOBBY_EXPIRY_MS {
          sessions[i] := CLEARED;
        }
        return;
      }
      if s.phase == Starting && Elapsed(now, s.lastRefan) >= START_REFAN_MS {
        out := FanStarts(s, true);
        sessions[i] := s.(lastRefan := now);
      }
      var relay := AnyRelay(s);
      if !relay {
        if Elapsed(now, s.started) > STARTED_EXPIRY_MS {
          sessions[i] := CLEARED;
        }
      } else if Elapsed(now, s.lastRelay) > RELAY_EXPIRY_MS {
        sessions[i] := CLEARED;
      }
    }
  }
}
