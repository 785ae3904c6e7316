// Every step of the bootstrap keeps the record of who was told what, who probed
// whom and who answered.

module BootstrapSeen {
  import opened Basics
  import opened LobbyTypes
  import opened Scan
  import opened Bootstrap
  import opened BootstrapClient
  import opened BootstrapReceive
  import opened BootstrapPoll
  import opened BootstrapAnswers
  import BootstrapSteps
  import BootstrapServer
  import BootstrapDispatch
  import BootstrapHandle
  import BootstrapRuns
  import K = RendezvousTick
  import R = Rendezvous
  import T = RendezvousTable
  import C = LobbyClient
  import LobbyCode

  predicate Both(s: System) {
    Inv(s) && Seen(s)
  }

  lemma BookOf(s: System, e: Endpoint)
    requires Seen(s) && e in s.clients
    ensures BookOk(s, e)
  {
    hide BookOk, SpokenTrue, RecordOk;
  }

  // -------------------------------------------------------------- one client

  /** From s, client e may become r.0 while sending r.1, with everything kept. */
  predicate Safe(s: System, e: Endpoint, r: (C.Client, seq<Out>)) {
    e in s.clients && Both(After(s, e, r.0, r.1)) && Steady(s.clients[e], r.0)
  }

  lemma SafeSound(s: System, e: Endpoint, r: (C.Client, seq<Out>))
    requires Both(s) && Fine(s, e, r) && Sound(s, e, r.0, r.1)
    ensures Safe(s, e, r)
  {
    hide Inv, Seen, BookOk, SpokenTrue, Steady;
    SoundKeeps(s, e, r.0, r.1);
  }

  lemma SafeThen(s: System, e: Endpoint, a: (C.Client, seq<Out>), b: (C.Client, seq<Out>))
    requires Safe(s, e, a) && Safe(After(s, e, a.0, a.1), e, b)
    ensures Safe(s, e, (b.0, a.1 + b.1))
  {
    hide Both, Steady;
    AfterTwice(s, e, a.0, a.1, b.0, b.1);
    SteadyTrans(s.clients[e], a.0, b.0);
  }

  lemma SteadyTrans(c: C.Client, d: C.Client, f: C.Client)
    requires Steady(c, d) && Steady(d, f)
    ensures Steady(c, f)
  {
    hide Quad.At;
  }

  lemma SafeStill(s: System, e: Endpoint)
    requires Both(s) && e in s.clients
    ensures Safe(s, e, (s.clients[e], []))
  {
    hide Both, Quad.At;
    Unchanged(s, e);
  }

  lemma SafeAfter(s: System, e: Endpoint, a: (C.Client, seq<Out>))
    requires Safe(s, e, a)
    ensures var t := After(s, e, a.0, a.1); Both(t) && Inv(t) && e in t.clients && t.clients[e] == a.0
  {
    hide Inv, Seen;
  }

  lemma ReceiveSafe(s: System, e: Endpoint, now: u32, src: Endpoint, m: Msg)
    requires Both(s) && e in s.clients && C.Active(s.clients[e]) && Packet(src, e, m) in s.net
    ensures Safe(s, e, C.Receive(s.clients[e], now, src, m))
  {
    hide Inv, Seen, Sound, Good, BookOk, C.Receive, C.Active;
    BookOf(s, e);
    ReceiveGood(s, e, now, src, m);
    ReceiveSound(s, e, now, src, m);
    var r := C.Receive(s.clients[e], now, src, m);
    GoodKeeps(s, e, r.0, r.1);
    SafeSound(s, e, r);
  }

  lemma {:induction false} DrainSafe(s: System, e: Endpoint, now: u32, inbox: seq<C.In>)
    requires Both(s) && e in s.clients && (C.Active(s.clients[e]) || s.clients[e].stage == C.Failed)
      && Delivered(s, e, inbox)
    ensures var r := C.Drain(s.clients[e], now, inbox); Safe(s, e, r) && (C.Active(r.0) || r.0.stage == C.Failed)
    decreases |inbox|
  {
    var c := s.clients[e];
    hide Both, Safe, C.Receive;
    if inbox == [] || c.stage == C.Failed {
      SafeStill(s, e);
    } else {
      var r := C.Receive(c, now, inbox[0].from, inbox[0].msg);
      assert inbox[0] in inbox;
      ReceiveSafe(s, e, now, inbox[0].from, inbox[0].msg);
      StaysActive(c, now, inbox[0].from, inbox[0].msg);
      SafeAfter(s, e, r);
      DrainSafe(After(s, e, r.0, r.1), e, now, inbox[1..]);
      SafeThen(s, e, r, C.Drain(r.0, now, inbox[1..]));
    }
  }

  // ------------------------------------------------------------------ probing

  /** A probe goes to the peer's public or private address. */
  lemma TargetIs(p: C.Peer)
    ensures C.ProbeTarget(p) == p.pub || C.ProbeTarget(p) == p.priv
  {
  }

  /** The probe c sends to its peer in slot i. */
  predicate Probing(c: C.Client, i: Slot, o: Out) {
    && i != c.localSlot && o.to.port != 0 && o.to == C.ProbeTarget(c.peer.At(i))
    && o.msg == Punch(c.sessionId, c.localSlot, Word(c.peer.At(i).nonce))
  }

  /** One peer's share of PUNCHING: what it may send. */
  lemma PunchPeerSays(c: C.Client, now: u32, i: Slot)
    ensures var out := C.PunchPeer(c, now, i).1;
      out == [] || (|out| == 1 && (out[0].msg.PunchReport? || Probing(c, i, out[0])))
  {
    hide Quad.At, Quad.With, C.ProbeTarget, Word;
  }

  /** At most the clocks and marks of peer i move. */
  lemma PunchPeerEntry(c: C.Client, now: u32, i: Slot)
    ensures var d := C.PunchPeer(c, now, i).0;
      d == c || exists r, rep, t, alt :: d == Marked(c, i, r, rep, t, alt)
  {
    hide C.ReportOf, C.ProbeTarget, Word, Quad.With, Quad.At, Marked;
    var p := c.peer.At(i);
    var d := C.PunchPeer(c, now, i).0;
    if d != c {
      if Reports(c, now, i) {
        MarkedIs(c, i, true, now, p.lastPunch, p.punchAlt);
        assert d == Marked(c, i, true, now, p.lastPunch, p.punchAlt);
      } else {
        MarkedIs(c, i, p.reported, p.lastReport, p.lastPunch, !p.punchAlt);
        MarkedIs(c, i, p.reported, p.lastReport, now, !p.punchAlt);
        assert d == Marked(c, i, p.reported, p.lastReport, p.lastPunch, !p.punchAlt)
               || d == Marked(c, i, p.reported, p.lastReport, now, !p.punchAlt);
      }
    }
  }

  function Marked(c: C.Client, i: Slot, r: bool, rep: u32, t: u32, alt: bool): C.Client {
    c.(peer := c.peer.With(i, c.peer.At(i).(reported := r, lastReport := rep, lastPunch := t, punchAlt := alt)))
  }

  lemma MarkedIs(c: C.Client, i: Slot, r: bool, rep: u32, t: u32, alt: bool)
    ensures Marked(c, i, r, rep, t, alt) ==
      c.(peer := c.peer.With(i, c.peer.At(i).(reported := r, lastReport := rep, lastPunch := t, punchAlt := alt)))
  {
  }

  lemma EntryBook(c: C.Client, i: Slot, r: bool, rep: u32, t: u32, alt: bool)
    ensures SameBook(c, Marked(c, i, r, rep, t, alt))
  {
  }

  lemma PunchPeerBook(c: C.Client, now: u32, i: Slot)
    ensures SameBook(c, C.PunchPeer(c, now, i).0)
  {
    hide Quad.At, Quad.With, SameBook, C.PunchPeer, Marked;
    PunchPeerEntry(c, now, i);
    var d := C.PunchPeer(c, now, i).0;
    if d == c {
      SameBookRefl(c);
    } else {
      var r, rep, t, alt :| d == Marked(c, i, r, rep, t, alt);
      EntryBook(c, i, r, rep, t, alt);
    }
  }

  lemma MatchesSame(h: R.Session, p: C.Peer, q: C.Peer, j: Slot)
    requires Matches(h, p, j) && SameEntry(p, q)
    ensures Matches(h, q, j)
  {
  }

  /** A present peer has a nonce and is on record. */
  lemma PresentNoted(s: System, e: Endpoint, i: Slot)
    requires e in s.clients && ClientInv(s, e) && BookOk(s, e)
    requires s.clients[e].peer.At(i).present && i != s.clients[e].localSlot
    ensures s.clients[e].peer.At(i).nonce != 0 && HasHome(s.server.sessions, s.clients[e].sessionId)
    ensures Matches(Home(s.server.sessions, s.clients[e].sessionId), s.clients[e].peer.At(i), i)
  {
    hide Placed, RoutesOk, KnownOk, StartedOk, Home, HasHome, Seated, OtherSeat, Drawn, Word, Matches;
  }

  lemma ProbeSpoken(t: System, e: Endpoint, i: Slot, a: Packet)
    requires e in t.clients && a.src == e && a.msg.Punch? && a.dst.port != 0
      && HasHome(t.server.sessions, t.clients[e].sessionId)
    requires var c := t.clients[e];
      && c.peer.At(i).nonce != 0 && Matches(Home(t.server.sessions, c.sessionId), c.peer.At(i), i)
      && a.msg.sessionId == c.sessionId && a.msg.nonce == Word(c.peer.At(i).nonce)
      && (a.dst == c.peer.At(i).pub || a.dst == c.peer.At(i).priv)
    ensures SpokenTrue(t, a)
  {
    hide Home, HasHome, Quad.At, Word;
    assert AimedAt(Home(t.server.sessions, t.clients[e].sessionId), t.clients[e], i, a);
  }

  lemma PunchPeerSafe(s: System, e: Endpoint, now: u32, i: Slot)
    requires Both(s) && e in s.clients && s.clients[e].stage == C.Punching && i < s.clients[e].numPlayers
    ensures Safe(s, e, C.PunchPeer(s.clients[e], now, i)) && C.PunchPeer(s.clients[e], now, i).0.stage == C.Punching
  {
    hide Inv, Seen, ClientInv, BookOk, Sound, SameBook, SpokenTrue, C.PunchPeer, C.ProbeTarget, Matches, HasHome,
      Home, Word, Sent;
    var c := s.clients[e];
    var r := C.PunchPeer(c, now, i);
    InvClient(s, e);
    BookOf(s, e);
    PunchPeerKeeps(s, e, now, i);
    PunchPeerSays(c, now, i);
    PunchPeerBook(c, now, i);
    if r.1 == [] || r.1[0].msg.PunchReport? {
      QuietSound(s, e, r.0, r.1);
    } else {
      PunchingPresent(s, e, i);
      PresentNoted(s, e, i);
      TargetIs(c.peer.At(i));
      SameEntries(c, r.0);
      SameBookIs(c, r.0);
      MatchesSame(Home(s.server.sessions, c.sessionId), c.peer.At(i), r.0.peer.At(i), i);
      ProbeSpoken(After(s, e, r.0, r.1), e, i, Packet(e, r.1[0].to, r.1[0].msg));
      FrameSound(s, e, r.0, r.1);
    }
    SafeSound(s, e, r);
  }

  lemma {:induction false} PunchFromSafe(s: System, e: Endpoint, now: u32, i: nat)
    requires Both(s) && e in s.clients && s.clients[e].stage == C.Punching
    ensures Safe(s, e, C.PunchFrom(s.clients[e], now, i))
    decreases 4 - i
  {
    hide *;
    var c := s.clients[e];
    PunchFromStep(c, now, i);
    if i >= 4 || i >= c.numPlayers {
      SafeStill(s, e);
    } else {
      var r := C.PunchPeer(c, now, i);
      PunchPeerSafe(s, e, now, i);
      SafeAfter(s, e, r);
      PunchFromSafe(After(s, e, r.0, r.1), e, now, i + 1);
      SafeThen(s, e, r, C.PunchFrom(r.0, now, i + 1));
    }
  }

  // ------------------------------------------------------------------- duties

  lemma RequestSpoken(t: System, e: Endpoint, o: Out, c: C.Client)
    requires e in t.clients && t.clients[e].privateEp == c.privateEp && (o == C.HostReqOf(c) || o == C.JoinReqOf(c))
    ensures SpokenTrue(t, Packet(e, o.to, o.msg))
  {
  }

  lemma AimBook(c: C.Client, now: u32)
    ensures SameBook(c, C.EnterPunching(c, now))
  {
    var d := c.(stage := C.Punching);
    AimOnly(d, now, 0);
    SamePeerBook(c, d);
    hide C.AimFrom, SameBook;
    BookTrans(c, d, C.AimFrom(d, now, 0));
  }

  lemma BookTrans(c: C.Client, d: C.Client, f: C.Client)
    requires SameBook(c, d) && SameBook(d, f)
    ensures SameBook(c, f)
  {
  }

  lemma AimOne(c: C.Client, now: u32, i: Slot)
    ensures SameBook(c, c.(peer := c.peer.With(i, C.Aim(c.peer.At(i), now))))
  {
  }

  lemma {:induction false} AimOnly(c: C.Client, now: u32, i: nat)
    ensures SameBook(c, C.AimFrom(c, now, i))
    decreases 4 - i
  {
    hide SameBook, C.Aim;
    SameBookRefl(c);
    if i < 4 && i < c.numPlayers {
      if i == c.localSlot {
        AimOnly(c, now, i + 1);
      } else {
        var d := c.(peer := c.peer.With(i, C.Aim(c.peer.At(i), now)));
        AimOne(c, now, i);
        AimOnly(d, now, i + 1);
        BookTrans(c, d, C.AimFrom(d, now, i + 1));
      }
    }
  }

  /** The stages other than PUNCHING change no entry, and send at most a request. */
  lemma OtherDuty(c: C.Client, now: u32)
    requires c.stage != C.Punching
    ensures var (d, out) := C.StageDuty(c, now);
      SameBook(c, d) && (out == [] || (|out| == 1 && (out[0] == C.HostReqOf(d) || out[0] == C.JoinReqOf(d))))
  {
    AimBook(c, now);
    hide C.EnterPunching, C.HostReqOf, C.JoinReqOf, C.StageName, C.AllPeersPresent, SameBook;
    var d := C.StageDuty(c, now).0;
    if d != C.EnterPunching(c, now) {
      SamePeerBook(c, d);
    }
  }

  lemma StageDutySafe(s: System, e: Endpoint, now: u32)
    requires Both(s) && e in s.clients && C.Active(s.clients[e])
    ensures Safe(s, e, C.StageDuty(s.clients[e], now)) && C.StageDuty(s.clients[e], now).0.stage != C.Ready
  {
    hide Inv, Seen, BookOk, Sound, SameBook, SpokenTrue, C.PunchFrom, C.HostReqOf, C.JoinReqOf, C.Active, Fine, Safe;
    var c := s.clients[e];
    var r := C.StageDuty(c, now);
    BookOf(s, e);
    StageDutyFine(s, e, now);
    if c.stage == C.Punching {
      PunchFromSafe(s, e, now, 0);
    } else {
      OtherDuty(c, now);
      hide C.StageDuty;
      SameBookIs(c, r.0);
      if r.1 == [] {
        QuietSound(s, e, r.0, r.1);
      } else {
        RequestSpoken(After(s, e, r.0, r.1), e, r.1[0], r.0);
        FrameSound(s, e, r.0, r.1);
      }
      SafeSound(s, e, r);
    }
  }

  lemma HostDutySays(c: C.Client, now: u32)
    ensures var (d, out) := C.HostDuty(c, now); SameBook(c, d) && forall o :: o in out ==> Neutral(o.msg)
  {
    hide C.AllPairsDecided, C.Params, SameBook;
    SamePeerBook(c, C.HostDuty(c, now).0);
  }

  lemma KeepDutySays(c: C.Client, now: u32)
    ensures var (d, out) := C.KeepDuty(c, now); SameBook(c, d) && forall o :: o in out ==> Neutral(o.msg)
  {
    hide SameBook;
    SamePeerBook(c, C.KeepDuty(c, now).0);
  }

  lemma FinishSays(c: C.Client)
    ensures SameBook(c, C.Finish(c))
  {
    hide C.LocalRoutesDecided, C.FillResult, SameBook;
    SamePeerBook(c, C.Finish(c));
  }

  /** A step with true but neutral sends. */
  lemma NeutralSafe(s: System, e: Endpoint, r: (C.Client, seq<Out>))
    requires Both(s) && e in s.clients && Fine(s, e, r) && SameBook(s.clients[e], r.0) && forall o :: o in r.1 ==>
      Neutral(o.msg)
    ensures Safe(s, e, r)
  {
    hide Inv, Seen, BookOk, Sound, SameBook, Neutral, Fine, Safe;
    BookOf(s, e);
    QuietSound(s, e, r.0, r.1);
    SafeSound(s, e, r);
  }

  lemma HostDutySafe(s: System, e: Endpoint, now: u32)
    requires Both(s) && e in s.clients
    ensures Safe(s, e, C.HostDuty(s.clients[e], now)) && C.HostDuty(s.clients[e], now).0.stage == s.clients[e].stage
  {
    hide Inv, Seen, SameBook, Neutral, Fine, Safe, C.HostDuty;
    HostDutyFine(s, e, now);
    HostDutySays(s.clients[e], now);
    NeutralSafe(s, e, C.HostDuty(s.clients[e], now));
  }

  lemma FinishSafe(s: System, e: Endpoint)
    requires Both(s) && e in s.clients && s.clients[e].stage != C.Ready
    ensures Safe(s, e, (C.Finish(s.clients[e]), []))
  {
    hide Inv, Seen, SameBook, Fine, Safe, C.Finish;
    FinishFine(s, e);
    FinishSays(s.clients[e]);
    NeutralSafe(s, e, (C.Finish(s.clients[e]), []));
  }

  lemma KeepDutySafe(s: System, e: Endpoint, now: u32)
    requires Both(s) && e in s.clients
    ensures Safe(s, e, C.KeepDuty(s.clients[e], now))
  {
    hide Inv, Seen, SameBook, Neutral, Fine, Safe, C.KeepDuty;
    KeepDutyFine(s, e, now);
    KeepDutySays(s.clients[e], now);
    NeutralSafe(s, e, C.KeepDuty(s.clients[e], now));
  }

  lemma FailSafe(s: System, e: Endpoint, text: string)
    requires Both(s) && e in s.clients
    ensures Safe(s, e, (C.Fail(s.clients[e], text), []))
  {
    hide Inv, Seen, SameBook, Fine, Safe, C.Fail;
    FailFine(s, e, text);
    FailBook(s.clients[e], text);
    NeutralSafe(s, e, (C.Fail(s.clients[e], text), []));
  }

  lemma ClosingSafe(s: System, e: Endpoint, now: u32)
    requires Both(s) && e in s.clients && s.clients[e].stage != C.Ready
    ensures var (d, out4) := C.HostDuty(s.clients[e], now);
      var (f, out6) := C.KeepDuty(C.Finish(d), now);
      Safe(s, e, (f, out4 + out6))
  {
    hide *;
    var a := C.HostDuty(s.clients[e], now);
    HostDutySafe(s, e, now);
    SafeAfter(s, e, a);
    var t := After(s, e, a.0, a.1);
    var b := (C.Finish(a.0), []);
    FinishSafe(t, e);
    SafeAfter(t, e, b);
    var u := After(t, e, b.0, b.1);
    var k := C.KeepDuty(b.0, now);
    KeepDutySafe(u, e, now);
    SafeThen(t, e, b, k);
    assert b.1 + k.1 == k.1;
    SafeThen(s, e, a, k);
  }

  lemma DutiesSafe(s: System, e: Endpoint, now: u32)
    requires Both(s) && e in s.clients && C.Active(s.clients[e])
    ensures Safe(s, e, C.Duties(s.clients[e], now))
  {
    hide *;
    var c := s.clients[e];
    DutiesIs(c, now);
    if Elapsed(now, c.beginMs) > C.TIMEOUT_MS {
      FailSafe(s, e, C.StageName(c.stage));
    } else {
      var a := C.StageDuty(c, now);
      StageDutySafe(s, e, now);
      if a.0.stage != C.Failed {
        SafeAfter(s, e, a);
        ClosingSafe(After(s, e, a.0, a.1), e, now);
        var h := C.HostDuty(a.0, now);
        var k := C.KeepDuty(C.Finish(h.0), now);
        SafeThen(s, e, a, (k.0, h.1 + k.1));
      }
    }
  }

  lemma DutiesIs(c: C.Client, now: u32)
    ensures var a := C.StageDuty(c, now);
      var h := C.HostDuty(a.0, now);
      var k := C.KeepDuty(C.Finish(h.0), now);
      C.Duties(c, now) ==
        if Elapsed(now, c.beginMs) > C.TIMEOUT_MS then (C.Fail(c, C.StageName(c.stage)), [])
        else if a.0.stage == C.Failed then a
        else (k.0, a.1 + (h.1 + k.1))
  {
    hide C.StageDuty, C.HostDuty, C.Finish, C.KeepDuty, C.StageName, C.Fail;
    var a := C.StageDuty(c, now);
    var h := C.HostDuty(a.0, now);
    var k := C.KeepDuty(C.Finish(h.0), now);
    assert a.1 + h.1 + k.1 == a.1 + (h.1 + k.1);
  }

  lemma PollSafe(s: System, e: Endpoint, now: u32, inbox: seq<C.In>)
    requires Both(s) && e in s.clients && Delivered(s, e, inbox)
    ensures Safe(s, e, C.Poll(s.clients[e], now, inbox))
  {
    hide Both, Safe, C.Drain, C.Duties, C.Active, After, Delivered;
    var c := s.clients[e];
    if !C.Active(c) {
      SafeStill(s, e);
    } else {
      var taken := if |inbox| <= C.DRAIN_MAX then inbox else inbox[..C.DRAIN_MAX];
      DeliveredPrefix(s, e, inbox);
      var a := C.Drain(c, now, taken);
      DrainSafe(s, e, now, taken);
      if a.0.stage != C.Failed {
        SafeAfter(s, e, a);
        DutiesSafe(After(s, e, a.0, a.1), e, now);
        SafeThen(s, e, a, C.Duties(a.0, now));
      }
    }
  }

  /** The answers after READY. */
  lemma PostSafe(s: System, e: Endpoint, from: Endpoint, m: Msg)
    requires Both(s) && e in s.clients && Packet(from, e, m) in s.net
    ensures Safe(s, e, (s.clients[e], C.PostReceive(s.clients[e], from, m)))
  {
    hide Inv, Seen, BookOk, Sound, SameBook, SpokenTrue;
    var c := s.clients[e];
    BookOf(s, e);
    BootstrapSteps.PostKeeps(s, e, from, m);
    SameBookRefl(c);
    var out := C.PostReceive(c, from, m);
    if out == [] || m.Start? {
      QuietSound(s, e, c, out);
    } else {
      ReadyHasId(s, e);
      AnswerSound(s, e, Packet(from, e, m));
    }
    SafeSound(s, e, (c, out));
  }

  lemma ReadyHasId(s: System, e: Endpoint)
    requires Inv(s) && e in s.clients && s.clients[e].stage == C.Ready
    ensures s.clients[e].sessionId != 0
  {
    InvClient(s, e);
    hide Inv, ProbesOk, RoutesOk, KnownOk, StartedOk, Seated, Home, HasHome;
  }

  // -------------------------------------------------------------- newcomers

  lemma NewBook(s: System, e: Endpoint, d: C.Client, out: seq<Out>, f: Endpoint)
    requires e !in s.clients && f in s.clients && BookOk(s, f)
    ensures BookOk(After(s, e, d, out), f)
  {
    hide Home, HasHome, Sent, Quad.At, Word;
  }

  lemma OldSpoken(s: System, e: Endpoint, d: C.Client, out: seq<Out>, p: Packet)
    requires e !in s.clients && p in s.net && p.src != e && SpokenTrue(s, p)
    ensures SpokenTrue(After(s, e, d, out), p)
  {
    hide Home, HasHome, Sent, Quad.At, Echoes, Word;
    if p.src in s.clients && p.msg.PunchAck? {
      EchoesMore(s.net, After(s, e, d, out).net, p);
    }
  }

  lemma BlankBook(t: System, e: Endpoint)
    requires e in t.clients && t.clients[e].peer == Same(C.NO_PEER)
    ensures BookOk(t, e)
  {
    hide Home, HasHome;
  }

  lemma NewcomerSeen(s: System, e: Endpoint, d: C.Client, o: Out)
    requires Both(s) && e !in s.clients && e != s.ep && d.peer == Same(C.NO_PEER)
    requires o == C.HostReqOf(d) || o == C.JoinReqOf(d)
    ensures Seen(After(s, e, d, [o]))
  {
    hide Inv, BookOk, SpokenTrue, RecordOk, Sent, C.HostReqOf, C.JoinReqOf;
    var t := After(s, e, d, [o]);
    RequestSpoken(t, e, o, d);
    BlankBook(t, e);
    forall i | 0 <= i < |t.server.sessions| ensures RecordOk(t, t.server.sessions[i]) {
      RecordStays(s, e, d, [o], s.server.sessions[i]);
    }
    forall f | f in t.clients ensures BookOk(t, f) {
      if f != e {
        NewBook(s, e, d, [o], f);
      }
    }
    forall p | p in t.net ensures SpokenTrue(t, p) {
      if p in s.net {
        BootstrapSteps.NobodySpoke(s, e, p);
        OldSpoken(s, e, d, [o], p);
      } else {
        NewSpoken(s, e, d, [o], p);
      }
    }
  }

  lemma BeginSeen(s: System, step: Step)
    requires Both(s) && (step.HostStart? || step.JoinStart?) && Enabled(s, step) && |s.server.rate| == R.RATE_BUCKETS
    ensures Seen(Apply(s, step))
  {
    hide Both, LobbyCode.Decode, Seen, C.HostReqOf, C.JoinReqOf;
    if step.HostStart? {
      var r := C.HostBegin(step.now, step.rng, s.ep, step.privateEp, step.netVersion, step.p).value;
      assert r.1 == [C.HostReqOf(r.0)] && r.0.peer == Same(C.NO_PEER);
      NewcomerSeen(s, step.e, r.0, C.HostReqOf(r.0));
    } else {
      var r := C.JoinBegin(step.now, step.rng, step.privateEp, step.netVersion, s.clients[step.host].code).value;
      assert r.1 == [C.JoinReqOf(r.0)] && r.0.peer == Same(C.NO_PEER);
      NewcomerSeen(s, step.e, r.0, C.JoinReqOf(r.0));
    }
  }

  // --------------------------------------------------------------- the server

  /** Slot k of a session after a message: as it was, or the sender's, as asked. */
  predicate Entered(h: R.Session, k: R.Session, from: Endpoint, m: Msg) {
    forall j: Slot :: k.peers.At(j).used ==>
      || (h.peers.At(j).used && k.peers.At(j).publicEp == h.peers.At(j).publicEp
        && k.peers.At(j).privateEp == h.peers.At(j).privateEp)
      || ((m.HostReq? || m.JoinReq?) && k.peers.At(j).publicEp == from && k.peers.At(j).privateEp == m.privateEp)
  }

  lemma EnteredRefl(h: R.Session, from: Endpoint, m: Msg)
    ensures Entered(h, h, from, m)
  {
  }

  lemma JoinEnters(h: R.Session, now: u32, from: Endpoint, m: Msg)
    requires m.JoinReq?
    ensures Entered(h, R.Join(h, now, from, m).0, from, m)
  {
    hide R.FanIntro, R.ResendIntros, Quad.At;
  }

  lemma ReportEnters(h: R.Session, now: u32, from: Endpoint, m: Msg)
    requires m.PunchReport?
    ensures Entered(h, R.Report(h, now, from, m).0, from, m)
  {
    hide R.FanRoute, R.Grid.At, R.Grid.With, Quad.At;
  }

  lemma OthersEnter(h: R.Session, now: u32, from: Endpoint, m: Msg)
    ensures m.Start? ==> Entered(h, R.BeginStart(h, now, m.params).0, from, m)
    ensures m.StartAck? ==> Entered(h, R.Ack(h, now, from, m), from, m)
    ensures Entered(h, R.Keep(h, now, from), from, m)
    ensures m.Relay? && m.fromSlot < 4 ==> Entered(h, R.Forward(h, now, m), from, m)
  {
    hide R.FanStart, R.AllAcked, Quad.At;
  }

  lemma HostReqEnters(sv: R.Server, now: u32, from: Endpoint, m: Msg, i: nat)
    requires m.HostReq? && i < |sv.sessions|
    ensures var tt := R.HandleHostReq(sv, now, from, m).0.sessions;
      |tt| == |sv.sessions| && Entered(sv.sessions[i], tt[i], from, m)
  {
    hide R.PickId, R.ResendIntros;
    assert forall j: Slot :: j != 0 ==> !R.OpenSession(1, now, from, m).peers.At(j).used;
  }

  lemma DispatchEnters(sv: R.Server, now: u32, from: Endpoint, m: Msg, i: nat)
    requires i < |sv.sessions|
    ensures var tt := R.Dispatch(sv, now, from, m).0.sessions;
      |tt| == |sv.sessions| && Entered(sv.sessions[i], tt[i], from, m)
  {
    hide Entered, R.Join, R.Report, R.BeginStart, R.Ack, R.Keep, R.Forward, R.HandleHostReq, R.HostsLive;
    var h := sv.sessions[i];
    EnteredRefl(h, from, m);
    OthersEnter(h, now, from, m);
    if m.HostReq? {
      HostReqEnters(sv, now, from, m, i);
    } else if m.JoinReq? {
      JoinEnters(h, now, from, m);
    } else if m.PunchReport? {
      ReportEnters(h, now, from, m);
    }
  }

  /** What a server step must show of its sessions. */
  predicate Records(s: System, tt: seq<R.Session>) {
    forall i :: 0 <= i < |tt| ==> RecordOk(s, tt[i])
  }

  lemma EnteredRecord(s: System, h: R.Session, k: R.Session, from: Endpoint, m: Msg)
    requires RecordOk(s, h) && (h.phase == R.Free ==> forall j: Slot :: !h.peers.At(j).used) && Entered(h, k, from, m)
    requires (m.HostReq? || m.JoinReq?) ==> Recorded(s, from, m.privateEp)
    ensures RecordOk(s, k)
  {
    hide Quad.At;
  }

  lemma FreeIsEmpty(h: R.Session)
    requires T.SessionInv(h) && h.phase == R.Free
    ensures forall j: Slot :: !h.peers.At(j).used
  {
  }

  lemma RequestRecorded(s: System, from: Endpoint, m: Msg)
    requires Both(s) && Packet(from, s.ep, m) in s.net && (m.HostReq? || m.JoinReq?)
    ensures Recorded(s, from, m.privateEp)
  {
    hide Inv, ClientInv, BookOk, RecordOk, ClientSaid;
    BootstrapHandle.Sender(s, from, m);
    assert SpokenTrue(s, Packet(from, s.ep, m));
  }

  lemma DispatchRecords(s: System, sv: R.Server, now: u32, from: Endpoint, m: Msg)
    requires Both(s) && sv.sessions == s.server.sessions && Packet(from, s.ep, m) in s.net
    ensures Records(s, R.Dispatch(sv, now, from, m).0.sessions)
  {
    hide Inv, R.Dispatch, RecordOk, T.SessionInv, T.TableInv, T.Vouched, T.Evolves, Entered, BookOk, SpokenTrue,
      Recorded;
    BootstrapDispatch.TableOf(s);
    if m.HostReq? || m.JoinReq? {
      RequestRecorded(s, from, m);
    }
    var tt := R.Dispatch(sv, now, from, m).0.sessions;
    T.DispatchKeeps(sv, now, from, m);
    forall i | 0 <= i < |tt| ensures RecordOk(s, tt[i]) {
      DispatchEnters(sv, now, from, m, i);
      if s.server.sessions[i].phase == R.Free {
        FreeIsEmpty(s.server.sessions[i]);
      }
      EnteredRecord(s, s.server.sessions[i], tt[i], from, m);
    }
  }

  lemma HandleRecords(s: System, now: u32, from: Endpoint, m: Msg)
    requires Both(s) && |s.server.rate| == R.RATE_BUCKETS && Packet(from, s.ep, m) in s.net
    ensures Records(s, R.Handle(s.server, now, from, m).0.sessions)
  {
    hide Inv, R.Dispatch, RecordOk, BookOk, SpokenTrue, R.RateTake;
    if m.Relay? {
      DispatchRecords(s, s.server, now, from, m);
    } else {
      var k := from.ip % R.RATE_BUCKETS;
      var sv := s.server.(rate := s.server.rate[k := R.RateTake(s.server.rate[k], now).0]);
      DispatchRecords(s, sv, now, from, m);
    }
  }

  lemma TickRecords(s: System, now: u32)
    requires Both(s) && BootstrapRuns.NoneExpired(s.server.sessions, now)
    ensures Records(s, R.Tick(s.server, now).0.sessions)
  {
    hide Inv, RecordOk, BookOk, SpokenTrue, R.TickSession, R.Tick, BootstrapRuns.NoneExpired, T.SessionInv;
    BootstrapDispatch.TableOf(s);
    BootstrapRuns.TickStill(s, now);
    var tt := R.Tick(s.server, now).0.sessions;
    forall i | 0 <= i < |tt| ensures RecordOk(s, tt[i]) {
      RestampRecord(s, s.server.sessions[i], now);
    }
  }

  lemma RestampRecord(s: System, h: R.Session, now: u32)
    requires RecordOk(s, h)
    ensures RecordOk(s, R.TickSession(h, now).0)
  {
    hide R.FanStart, R.Expired, Quad.At, Recorded;
    NoPeers();
  }

  lemma NoPeers()
    ensures R.CLEARED.phase == R.Free
  {
  }

  // what clients were told stays on record

  predicate KeepsRecord(h: R.Session, k: R.Session) {
    forall j: Slot :: h.peers.At(j).used ==>
      k.peers.At(j).used && k.peers.At(j).publicEp == h.peers.At(j).publicEp
        && k.peers.At(j).privateEp == h.peers.At(j).privateEp
  }

  lemma HomeRecord(ss: seq<R.Session>, tt: seq<R.Session>, id: u16)
    requires T.TableInv(ss) && T.TableInv(tt) && T.Advances(ss, tt) && HasHome(ss, id)
    ensures HasHome(tt, id) && KeepsRecord(Home(ss, id), Home(tt, id))
  {
    BootstrapServer.HomeStable(ss, tt, id);
    hide HasHome, Home, T.TableInv, T.Advances, T.CellsOk, Quad.At, R.Grid.At;
  }

  predicate HomesKept(ss: seq<R.Session>, tt: seq<R.Session>) {
    forall id: u16 :: HasHome(ss, id) ==> HasHome(tt, id) && KeepsRecord(Home(ss, id), Home(tt, id))
  }

  lemma AllHomes(ss: seq<R.Session>, tt: seq<R.Session>)
    requires T.TableInv(ss) && T.TableInv(tt) && T.Advances(ss, tt)
    ensures HomesKept(ss, tt)
  {
    hide HasHome, Home, KeepsRecord, T.TableInv, T.Advances;
    forall id: u16 | HasHome(ss, id) ensures HasHome(tt, id) && KeepsRecord(Home(ss, id), Home(tt, id)) {
      HomeRecord(ss, tt, id);
    }
  }

  lemma BookKept(s: System, r: (R.Server, seq<Out>), e: Endpoint)
    requires e in s.clients && BookOk(s, e) && HomesKept(s.server.sessions, r.0.sessions)
    ensures BookOk(ServerAfter(s, r), e)
  {
    hide Home, HasHome, Sent, Quad.At, Word;
  }

  lemma SpokenKept(s: System, r: (R.Server, seq<Out>), p: Packet)
    requires p in s.net && SpokenTrue(s, p) && HomesKept(s.server.sessions, r.0.sessions)
    ensures SpokenTrue(ServerAfter(s, r), p)
  {
    var t := ServerAfter(s, r);
    hide Home, HasHome, Sent, Quad.At, Echoes, Word;
    if p.src in s.clients {
      var c := s.clients[p.src];
      if p.msg.PunchAck? {
        EchoesMore(s.net, t.net, p);
      }
      if p.msg.Punch? {
        var j: Slot :| AimedAt(Home(s.server.sessions, c.sessionId), c, j, p);
        assert AimedAt(Home(t.server.sessions, c.sessionId), c, j, p);
      }
    }
  }

  lemma ServerSpoken(s: System, r: (R.Server, seq<Out>), p: Packet)
    requires s.ep !in s.clients && p in Sent(s.ep, r.1)
    ensures SpokenTrue(ServerAfter(s, r), p)
  {
  }

  lemma ServerApart(s: System)
    requires Inv(s)
    ensures s.ep !in s.clients
  {
    if s.ep in s.clients {
      InvClient(s, s.ep);
      hide Inv, ProbesOk, RoutesOk, KnownOk, StartedOk, Shape, Home, HasHome, Seated;
      assert false;
    }
  }

  lemma RecordSame(s: System, r: (R.Server, seq<Out>), h: R.Session)
    requires RecordOk(s, h)
    ensures RecordOk(ServerAfter(s, r), h)
  {
    hide Quad.At, Sent;
  }

  lemma ServerSeen(s: System, r: (R.Server, seq<Out>))
    requires Both(s) && Records(s, r.0.sessions)
    requires T.TableInv(r.0.sessions) && T.Advances(s.server.sessions, r.0.sessions)
    ensures Seen(ServerAfter(s, r))
  {
    hide Inv, BookOk, SpokenTrue, RecordOk, Sent, T.TableInv, T.Advances, HomesKept;
    BootstrapDispatch.TableOf(s);
    ServerApart(s);
    AllHomes(s.server.sessions, r.0.sessions);
    var t := ServerAfter(s, r);
    forall i | 0 <= i < |t.server.sessions| ensures RecordOk(t, t.server.sessions[i]) {
      RecordSame(s, r, r.0.sessions[i]);
    }
    forall e | e in t.clients ensures BookOk(t, e) {
      BookKept(s, r, e);
    }
    forall p | p in t.net ensures SpokenTrue(t, p) {
      if p in s.net {
        SpokenKept(s, r, p);
      } else {
        ServerSpoken(s, r, p);
      }
    }
  }

  lemma ReceiveSeen(s: System, now: u32, from: Endpoint, m: Msg)
    requires Both(s) && |s.server.rate| == R.RATE_BUCKETS && Packet(from, s.ep, m) in s.net
    ensures Seen(ServerAfter(s, R.Handle(s.server, now, from, m)))
  {
    hide Inv, Seen, T.TableInv, T.Advances, T.Vouched, R.Handle, Records;
    BootstrapDispatch.TableOf(s);
    T.HandleKeeps(s.server, now, from, m);
    HandleRecords(s, now, from, m);
    ServerSeen(s, R.Handle(s.server, now, from, m));
  }

  lemma TickSeen(s: System, now: u32)
    requires Both(s) && BootstrapRuns.NoneExpired(s.server.sessions, now)
    ensures Seen(ServerAfter(s, R.Tick(s.server, now)))
  {
    hide Inv, Seen, T.TableInv, T.Advances, R.Tick, Records, BootstrapRuns.NoneExpired;
    BootstrapDispatch.TableOf(s);
    BootstrapRuns.TickStill(s, now);
    TickRecords(s, now);
    ServerSeen(s, R.Tick(s.server, now));
  }

  // ------------------------------------------------------------------- steps

  /** Clients come and stay, and keep what is settled. */
  predicate Grown(s: System, t: System) {
    forall e :: e in s.clients ==> e in t.clients && Steady(s.clients[e], t.clients[e])
  }

  lemma SafeSeen(s: System, e: Endpoint, r: (C.Client, seq<Out>))
    requires Safe(s, e, r)
    ensures Seen(After(s, e, r.0, r.1)) && Grown(s, After(s, e, r.0, r.1))
  {
    hide Inv, Seen, Quad.At;
  }

  lemma NewGrown(s: System, e: Endpoint, d: C.Client, out: seq<Out>)
    requires e !in s.clients
    ensures Grown(s, After(s, e, d, out))
  {
    hide Quad.At;
  }

  lemma ServerGrown(s: System, r: (R.Server, seq<Out>))
    ensures Grown(s, ServerAfter(s, r))
  {
    hide Quad.At;
  }

  lemma ForceSafe(s: System, e: Endpoint)
    requires Both(s) && e in s.clients
    ensures Safe(s, e, (C.SetForcedRelay(s.clients[e]), []))
  {
    hide Inv, Seen, Safe;
    BootstrapSteps.ForceKeeps(s, e);
    NeutralSafe(s, e, (C.SetForcedRelay(s.clients[e]), []));
  }

  lemma GameSafe(s: System, e: Endpoint, o: Out)
    requires Both(s) && e in s.clients && (o.msg.Relay? || o.msg.Game?)
    ensures Safe(s, e, (s.clients[e], [o]))
  {
    hide Inv, Seen, Safe, SameBook;
    BootstrapSteps.GameSendKeeps(s, e, o);
    SameBookRefl(s.clients[e]);
    NeutralSafe(s, e, (s.clients[e], [o]));
  }

  /** Every enabled step keeps both invariants. */
  lemma ApplySeen(s: System, step: Step)
    requires Both(s) && |s.server.rate| == R.RATE_BUCKETS && Enabled(s, step)
    ensures Both(Apply(s, step)) && |Apply(s, step).server.rate| == R.RATE_BUCKETS && Grown(s, Apply(s, step))
  {
    hide Inv, Seen, Safe, Grown, R.Handle, R.Tick, C.Poll, C.PostReceive, C.HostBegin, C.JoinBegin, C.SetForcedRelay,
      After, ServerAfter;
    BootstrapRuns.ApplyKeeps(s, step);
    match step {
      case HostStart(e, now, rng, priv, ver, p) =>
        BeginSeen(s, step);
        var r := C.HostBegin(now, rng, s.ep, priv, ver, p).value;
        NewGrown(s, e, r.0, r.1);
      case JoinStart(e, now, rng, priv, ver, host) =>
        BeginSeen(s, step);
        var r := C.JoinBegin(now, rng, priv, ver, s.clients[host].code).value;
        NewGrown(s, e, r.0, r.1);
      case ForceRelay(e) =>
        ForceSafe(s, e);
        SafeSeen(s, e, (C.SetForcedRelay(s.clients[e]), []));
      case ClientPoll(e, now, inbox) =>
        PollSafe(s, e, now, inbox);
        SafeSeen(s, e, C.Poll(s.clients[e], now, inbox));
      case ClientPost(e, from, msg) =>
        PostSafe(s, e, from, msg);
        SafeSeen(s, e, (s.clients[e], C.PostReceive(s.clients[e], from, msg)));
      case GameSend(e, to, msg) =>
        GameSafe(s, e, Out(to, msg));
        SafeSeen(s, e, (s.clients[e], [Out(to, msg)]));
      case ServerReceive(now, from, msg) =>
        ReceiveSeen(s, now, from, msg);
        ServerGrown(s, R.Handle(s.server, now, from, msg));
      case ServerTick(now) =>
        TickSeen(s, now);
        ServerGrown(s, R.Tick(s.server, now));
    }
  }
}
