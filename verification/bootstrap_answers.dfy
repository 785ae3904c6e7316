// Whose acknowledgement made a client believe in a direct path: what each client
// was told of its peers, where its probes went, and which packet answered them.

module BootstrapAnswers {
  import opened Basics
  import opened LobbyTypes
  import opened Bootstrap
  import opened BootstrapClient
  import opened BootstrapReceive
  import R = Rendezvous
  import T = RendezvousTable
  import C = LobbyClient
  import BootstrapSettle
  import XorShift

  // ------------------------------------------------------------- invariant

  /** The server's record of a member: where it spoke from and the private endpoint
      it advertised. */
  predicate RecordOk(s: System, h: R.Session) {
    h.phase != R.Free ==> forall k: Slot :: h.peers.At(k).used ==>
      Recorded(s, h.peers.At(k).publicEp, h.peers.At(k).privateEp)
  }

  predicate Recorded(s: System, e: Endpoint, priv: Endpoint) {
    e in s.clients && s.clients[e].privateEp == priv
  }

  /** What c knows of the peer in slot j is the record of session h. */
  predicate Matches(h: R.Session, p: C.Peer, j: Slot) {
    && h.peers.At(j).used && p.pub == h.peers.At(j).publicEp && p.priv == h.peers.At(j).privateEp
  }

  predicate NotesOk(ss: seq<R.Session>, c: C.Client) {
    forall j: Slot :: c.peer.At(j).nonce != 0 ==>
      HasHome(ss, c.sessionId) && Matches(Home(ss, c.sessionId), c.peer.At(j), j)
  }

  /** An acknowledged peer has answered, from the chosen address, with e's own nonce. */
  predicate Answered(net: set<Packet>, c: C.Client, e: Endpoint, j: Slot) {
    && c.peer.At(j).nonce != 0 && c.sessionId != 0
    && Packet(c.peer.At(j).chosen, e, PunchAck(c.sessionId, j, Word(c.peer.At(j).nonce))) in net
  }

  predicate AnsweredOk(net: set<Packet>, c: C.Client, e: Endpoint) {
    forall j: Slot :: c.peer.At(j).acked ==> Answered(net, c, e, j)
  }

  /** A probe carries the nonce drawn for a peer and goes to one of the two addresses
      on that peer's record. */
  predicate AimedAt(h: R.Session, c: C.Client, j: Slot, p: Packet)
    requires p.msg.Punch?
  {
    && c.peer.At(j).nonce != 0 && p.msg.nonce == Word(c.peer.At(j).nonce) && h.peers.At(j).used && p.dst.port != 0
    && (p.dst == h.peers.At(j).publicEp || p.dst == h.peers.At(j).privateEp)
  }

  predicate ProbeTrue(ss: seq<R.Session>, c: C.Client, p: Packet) {
    p.msg.Punch? ==>
      HasHome(ss, c.sessionId) && p.msg.sessionId == c.sessionId
      && exists j: Slot :: AimedAt(Home(ss, c.sessionId), c, j, p)
  }

  /** p answers a probe that its receiver sent to its sender. */
  predicate Echoes(net: set<Packet>, p: Packet)
    requires p.msg.PunchAck?
  {
    exists q :: q in net && Echo(p, q)
  }

  predicate Echo(p: Packet, q: Packet)
    requires p.msg.PunchAck?
  {
    q.src == p.dst && q.dst == p.src && q.msg.Punch? && q.msg.nonce == p.msg.nonce
  }

  /** An acknowledgement names its sender's slot, unless the sender is a joiner that does
      not know its slot yet and says 0. */
  predicate AnswerTrue(s: System, c: C.Client, p: Packet) {
    p.msg.PunchAck? ==>
      && p.msg.sessionId == c.sessionId && p.msg.fromSlot < 4 && Echoes(s.net, p)
      && HasHome(s.server.sessions, c.sessionId)
      && (R.Owns(Home(s.server.sessions, c.sessionId).peers.At(p.msg.fromSlot), p.src)
         || (p.msg.fromSlot == 0 && !c.isHost))
  }

  predicate RequestTrue(c: C.Client, p: Packet) {
    (p.msg.HostReq? || p.msg.JoinReq?) ==> p.msg.privateEp == c.privateEp
  }

  predicate SpokenTrue(s: System, p: Packet) {
    p.src in s.clients ==>
      ProbeTrue(s.server.sessions, s.clients[p.src], p) && AnswerTrue(s, s.clients[p.src], p)
        && RequestTrue(s.clients[p.src], p)
  }

  predicate BookOk(s: System, e: Endpoint)
    requires e in s.clients
  {
    NotesOk(s.server.sessions, s.clients[e]) && AnsweredOk(s.net, s.clients[e], e)
  }

  /** The invariant, on top of the bootstrap's. */
  predicate Seen(s: System) {
    && (forall i :: 0 <= i < |s.server.sessions| ==> RecordOk(s, s.server.sessions[i]))
    && (forall e :: e in s.clients ==> BookOk(s, e))
    && (forall p :: p in s.net ==> SpokenTrue(s, p))
  }

  // ---------------------------------------------------------- client steps

  /** No nonce, no session and no advertised address ever changes once it is set. */
  predicate Steady(c: C.Client, d: C.Client) {
    && d.privateEp == c.privateEp && d.isHost == c.isHost && (c.sessionId != 0 ==> d.sessionId == c.sessionId)
    && forall j: Slot :: c.peer.At(j).nonce != 0 ==> d.peer.At(j).nonce == c.peer.At(j).nonce
  }

  /** The client step from c to d with these sends keeps Seen. */
  predicate Sound(s: System, e: Endpoint, d: C.Client, out: seq<Out>)
    requires e in s.clients
  {
    var t := After(s, e, d, out);
    Steady(s.clients[e], d) && BookOk(t, e) && forall o :: o in out ==> SpokenTrue(t, Packet(e, o.to, o.msg))
  }

  lemma EchoesMore(net: set<Packet>, more: set<Packet>, p: Packet)
    requires p.msg.PunchAck? && Echoes(net, p) && net <= more
    ensures Echoes(more, p)
  {
    var q :| q in net && Echo(p, q);
    assert q in more && Echo(p, q);
  }

  lemma HomeNeedsId(ss: seq<R.Session>, id: u16)
    requires HasHome(ss, id)
    ensures id != 0
  {
  }

  lemma SpokenStays(s: System, e: Endpoint, d: C.Client, out: seq<Out>, p: Packet)
    requires e in s.clients && Steady(s.clients[e], d) && p in s.net && SpokenTrue(s, p)
    ensures SpokenTrue(After(s, e, d, out), p)
  {
    var t := After(s, e, d, out);
    hide Home, HasHome, Sent, Quad.At, Echoes, Word;
    if p.src in s.clients {
      var c := s.clients[p.src];
      if HasHome(s.server.sessions, c.sessionId) {
        HomeNeedsId(s.server.sessions, c.sessionId);
      }
      if p.msg.PunchAck? {
        EchoesMore(s.net, t.net, p);
      }
      if p.msg.Punch? {
        var j: Slot :| AimedAt(Home(s.server.sessions, c.sessionId), c, j, p);
        assert AimedAt(Home(t.server.sessions, c.sessionId), t.clients[p.src], j, p);
      }
    }
  }

  lemma BookStays(s: System, e: Endpoint, d: C.Client, out: seq<Out>, f: Endpoint)
    requires e in s.clients && f in s.clients && f != e && BookOk(s, f)
    ensures BookOk(After(s, e, d, out), f)
  {
    hide Home, HasHome, Sent, Quad.At, Word;
  }

  lemma RecordStays(s: System, e: Endpoint, d: C.Client, out: seq<Out>, h: R.Session)
    requires RecordOk(s, h) && (e in s.clients ==> d.privateEp == s.clients[e].privateEp)
    ensures RecordOk(After(s, e, d, out), h)
  {
    hide Sent, Quad.At;
  }

  lemma NewSpoken(s: System, e: Endpoint, d: C.Client, out: seq<Out>, p: Packet)
    requires p in Sent(e, out) && forall o :: o in out ==> SpokenTrue(After(s, e, d, out), Packet(e, o.to, o.msg))
    ensures SpokenTrue(After(s, e, d, out), p)
  {
    hide SpokenTrue;
  }

  lemma SoundKeeps(s: System, e: Endpoint, d: C.Client, out: seq<Out>)
    requires Seen(s) && e in s.clients && Sound(s, e, d, out)
    ensures Seen(After(s, e, d, out))
  {
    hide BookOk, SpokenTrue, RecordOk, Sent;
    var t := After(s, e, d, out);
    forall i | 0 <= i < |t.server.sessions| ensures RecordOk(t, t.server.sessions[i]) {
      RecordStays(s, e, d, out, s.server.sessions[i]);
    }
    forall f | f in t.clients ensures BookOk(t, f) {
      if f != e {
        BookStays(s, e, d, out, f);
      }
    }
    forall p | p in t.net ensures SpokenTrue(t, p) {
      if p in s.net {
        SpokenStays(s, e, d, out, p);
      } else {
        NewSpoken(s, e, d, out, p);
      }
    }
  }

  // ------------------------------------------------------------------ frames

  /** The entry of a peer, as far as probes and answers go. */
  predicate SameEntry(p: C.Peer, q: C.Peer) {
    q.nonce == p.nonce && q.pub == p.pub && q.priv == p.priv && q.acked == p.acked && q.chosen == p.chosen
  }

  predicate SameBook(c: C.Client, d: C.Client) {
    && d.privateEp == c.privateEp && d.isHost == c.isHost && d.sessionId == c.sessionId
    && SameEntry(c.peer.x0, d.peer.x0) && SameEntry(c.peer.x1, d.peer.x1)
    && SameEntry(c.peer.x2, d.peer.x2) && SameEntry(c.peer.x3, d.peer.x3)
  }

  lemma SameEntries(c: C.Client, d: C.Client)
    requires SameBook(c, d)
    ensures forall j: Slot :: SameEntry(c.peer.At(j), d.peer.At(j))
  {
  }

  /** A step that changes no entry is as true as what it says. */
  lemma FrameSound(s: System, e: Endpoint, d: C.Client, out: seq<Out>)
    requires e in s.clients && BookOk(s, e) && SameBook(s.clients[e], d)
    requires forall o :: o in out ==> SpokenTrue(After(s, e, d, out), Packet(e, o.to, o.msg))
    ensures Sound(s, e, d, out)
  {
    SameEntries(s.clients[e], d);
    hide Home, HasHome, Sent, Quad.At, Word, SpokenTrue, SameBook;
    SameBookIs(s.clients[e], d);
  }

  lemma SameBookIs(c: C.Client, d: C.Client)
    requires SameBook(c, d)
    ensures d.privateEp == c.privateEp && d.isHost == c.isHost && d.sessionId == c.sessionId
  {
  }

  /** Messages that claim nothing about addresses or slots. */
  predicate Neutral(m: Msg) {
    !m.Punch? && !m.PunchAck? && !m.HostReq? && !m.JoinReq?
  }

  lemma NeutralTrue(t: System, p: Packet)
    requires Neutral(p.msg)
    ensures SpokenTrue(t, p)
  {
  }

  lemma QuietSound(s: System, e: Endpoint, d: C.Client, out: seq<Out>)
    requires e in s.clients && BookOk(s, e) && SameBook(s.clients[e], d)
    requires forall o :: o in out ==> Neutral(o.msg)
    ensures Sound(s, e, d, out)
  {
    hide BookOk, SameBook, SpokenTrue, Sent;
    forall o | o in out ensures SpokenTrue(After(s, e, d, out), Packet(e, o.to, o.msg)) {
      NeutralTrue(After(s, e, d, out), Packet(e, o.to, o.msg));
    }
    FrameSound(s, e, d, out);
  }

  // --------------------------------------------------------------- receiving

  lemma HostRespSound(s: System, e: Endpoint, id: u16)
    requires e in s.clients && ClientInv(s, e) && BookOk(s, e)
    ensures Sound(s, e, C.OnHostResp(s.clients[e], id), [])
  {
    var c := s.clients[e];
    var d := C.OnHostResp(c, id);
    SentNothing(s, e, d);
    if d != c {
      assert c.sessionId == 0 by { hide Seated, ProbesOk, RoutesOk, KnownOk, StartedOk, Home, HasHome; }
      NothingYet(s, e);
      hide ClientInv, Home, HasHome, Sent;
      assert forall j: Slot :: d.peer.At(j).nonce == 0 && !d.peer.At(j).acked;
    } else {
      hide ClientInv;
      QuietSound(s, e, d, []);
    }
  }

  /** Without a session nobody is known and nobody has answered. */
  lemma NothingYet(s: System, e: Endpoint)
    requires e in s.clients && BookOk(s, e) && s.clients[e].sessionId == 0
    ensures forall j: Slot :: s.clients[e].peer.At(j).nonce == 0 && !s.clients[e].peer.At(j).acked
  {
    hide Home, Quad.At, Word;
  }

  lemma JoinRespSound(s: System, e: Endpoint, slot: u8, np: u8)
    requires e in s.clients && BookOk(s, e)
    ensures Sound(s, e, C.OnJoinResp(s.clients[e], slot, np), [])
  {
    hide BookOk, Sound;
    var c := s.clients[e];
    assert SameBook(c, C.OnJoinResp(c, slot, np)) by { hide BookOk; }
    hide C.OnJoinResp, SameBook;
    QuietSound(s, e, C.OnJoinResp(c, slot, np), []);
  }

  /** The introduction of another slot of the session the receiver means. */
  lemma IntroRecord(s: System, e: Endpoint, src: Endpoint, slot: u8, pub: Endpoint, priv: Endpoint)
    requires Inv(s) && e in s.clients && Packet(src, e, PeerIntro(slot, pub, priv)) in s.net
    ensures slot < 4 && HasHome(s.server.sessions, s.clients[e].sessionId)
    ensures var p := Home(s.server.sessions, s.clients[e].sessionId).peers.At(slot);
      p.used && p.publicEp == pub && p.privateEp == priv
  {
    var i := FromServer(s, Packet(src, e, PeerIntro(slot, pub, priv)));
    MemberHome(s, e, i);
    HomeIs(s.server.sessions, i);
    hide Inv, SessionInv, Home, HasHome;
  }

  lemma UnmetBlank(s: System, e: Endpoint, slot: Slot)
    requires e in s.clients && ClientInv(s, e) && BookOk(s, e) && !s.clients[e].peer.At(slot).present
    ensures s.clients[e].peer.At(slot).nonce == 0 && !s.clients[e].peer.At(slot).acked
  {
    hide Placed, RoutesOk, KnownOk, StartedOk, Seated, OtherSeat, Home, HasHome, Drawn, XorShift.Next, Word;
  }

  /** What an introduction leaves of the entries: one is refreshed, or first filled. */
  predicate Introduced(c: C.Client, d: C.Client, slot: Slot, pub: Endpoint, priv: Endpoint) {
    && d.privateEp == c.privateEp && d.isHost == c.isHost && d.sessionId == c.sessionId
    && (forall j: Slot :: j != slot ==> d.peer.At(j) == c.peer.At(j))
    && var p, q := c.peer.At(slot), d.peer.At(slot);
       && q.pub == pub && q.priv == priv && q.acked == p.acked && q.chosen == p.chosen
       && (q.nonce == p.nonce || !p.present)
  }

  lemma IntroEntries(c: C.Client, now: u32, slot: u8, pub: Endpoint, priv: Endpoint)
    ensures var d := C.OnPeerIntro(c, now, slot, pub, priv);
      d == c || (slot < 4 && Introduced(c, d, slot, pub, priv))
  {
    hide C.NextRng;
  }

  lemma IntroducedSound(s: System, e: Endpoint, d: C.Client, slot: Slot, pub: Endpoint, priv: Endpoint)
    requires e in s.clients && BookOk(s, e) && Introduced(s.clients[e], d, slot, pub, priv)
    requires !s.clients[e].peer.At(slot).present ==>
      s.clients[e].peer.At(slot).nonce == 0 && !s.clients[e].peer.At(slot).acked
    requires HasHome(s.server.sessions, s.clients[e].sessionId)
    requires var p := Home(s.server.sessions, s.clients[e].sessionId).peers.At(slot);
      p.used && p.publicEp == pub && p.privateEp == priv
    ensures Sound(s, e, d, [])
  {
    SentNothing(s, e, d);
    hide Home, HasHome, Sent, Quad.At, Word;
  }

  lemma IntroSound(s: System, e: Endpoint, now: u32, src: Endpoint, slot: u8, pub: Endpoint, priv: Endpoint)
    requires Inv(s) && e in s.clients && BookOk(s, e) && Packet(src, e, PeerIntro(slot, pub, priv)) in s.net
    ensures Sound(s, e, C.OnPeerIntro(s.clients[e], now, slot, pub, priv), [])
  {
    hide Inv, ClientInv, BookOk, Sound, Introduced, Home, HasHome, C.OnPeerIntro;
    var c := s.clients[e];
    var d := C.OnPeerIntro(c, now, slot, pub, priv);
    InvClient(s, e);
    IntroRecord(s, e, src, slot, pub, priv);
    IntroEntries(c, now, slot, pub, priv);
    if d == c {
      SameBookRefl(c);
      QuietSound(s, e, d, []);
    } else {
      if !c.peer.At(slot).present {
        UnmetBlank(s, e, slot);
      }
      IntroducedSound(s, e, d, slot, pub, priv);
    }
  }

  lemma SameBookRefl(c: C.Client)
    ensures SameBook(c, c)
  {
  }

  /** A client that answers a probe is seated in the slot it names, or a joiner that has
      none yet; exactly the latter names a slot that is not its own. */
  lemma AnswersSlot(s: System, e: Endpoint)
    requires Inv(s) && e in s.clients && C.Order(s.clients[e].stage) <= 6 && s.clients[e].sessionId != 0
    ensures var c := s.clients[e];
      && HasHome(s.server.sessions, c.sessionId)
      && (R.Owns(Home(s.server.sessions, c.sessionId).peers.At(c.localSlot), e) <==> c.stage != C.Joining)
      && (c.stage == C.Joining ==> c.localSlot == 0 && !c.isHost)
  {
    InvClient(s, e);
    hide Inv, ClientInv, Home, HasHome, R.Owns, Quad.At;
    StageSeat(s, e);
    if s.clients[e].stage == C.Joining {
      NotTheHost(s, e);
    }
  }

  /** What a client's stage says of its seat. */
  lemma StageSeat(s: System, e: Endpoint)
    requires e in s.clients && ClientInv(s, e) && C.Order(s.clients[e].stage) <= 6 && s.clients[e].sessionId != 0
    ensures var c := s.clients[e];
      && HasHome(s.server.sessions, c.sessionId)
      && (c.stage == C.Joining ==> c.localSlot == 0 && !c.isHost)
      && (c.stage != C.Joining ==> R.Owns(Home(s.server.sessions, c.sessionId).peers.At(c.localSlot), e))
  {
    hide ProbesOk, RoutesOk, KnownOk, StartedOk, Home, HasHome, R.Owns, Quad.At;
  }

  lemma NotTheHost(s: System, e: Endpoint)
    requires Inv(s) && e in s.clients && !s.clients[e].isHost && s.clients[e].sessionId != 0
    ensures !R.Owns(Home(s.server.sessions, s.clients[e].sessionId).peers.At(0), e)
  {
    HomeFacts(s, e);
    hide Inv, Home, HasHome, T.SessionInv, StartOk, TalkOk;
  }

  lemma AckSpoken(t: System, e: Endpoint, a: Packet, p: Packet)
    requires e in t.clients && a.src == e && a.msg.PunchAck? && p in t.net && Echo(a, p)
    requires var c := t.clients[e];
      && a.msg.sessionId == c.sessionId && a.msg.fromSlot == c.localSlot && HasHome(t.server.sessions, c.sessionId)
      && (R.Owns(Home(t.server.sessions, c.sessionId).peers.At(c.localSlot), e) || (c.localSlot == 0 && !c.isHost))
    ensures SpokenTrue(t, a)
  {
    hide Home, HasHome, Quad.At;
  }

  lemma AnswerSound(s: System, e: Endpoint, p: Packet)
    requires Inv(s) && e in s.clients && BookOk(s, e) && C.Order(s.clients[e].stage) <= 6 && s.clients[e].sessionId != 0
    requires p in s.net && p.dst == e && p.msg.Punch?
    ensures var c := s.clients[e];
      Sound(s, e, c, [Out(p.src, PunchAck(c.sessionId, c.localSlot, p.msg.nonce))])
  {
    hide Inv, BookOk, Sound, SpokenTrue, SameBook, Home, HasHome;
    var c := s.clients[e];
    AnswersSlot(s, e);
    SameBookRefl(c);
    var out := [Out(p.src, PunchAck(c.sessionId, c.localSlot, p.msg.nonce))];
    var t := After(s, e, c, out);
    StaysIn(s, e, c, out, p);
    AckSpoken(t, e, Packet(e, out[0].to, out[0].msg), p);
    FrameSound(s, e, c, out);
  }

  lemma StaysIn(s: System, e: Endpoint, d: C.Client, out: seq<Out>, p: Packet)
    requires p in s.net
    ensures p in After(s, e, d, out).net && After(s, e, d, out).clients[e] == d
    ensures After(s, e, d, out).server == s.server
  {
    hide Sent;
  }

  lemma PunchSound(s: System, e: Endpoint, p: Packet)
    requires Inv(s) && e in s.clients && BookOk(s, e) && C.Order(s.clients[e].stage) <= 6
    requires p in s.net && p.dst == e && p.msg.Punch?
    ensures Sound(s, e, s.clients[e], C.OnPunch(s.clients[e], p.src, p.msg.sessionId, p.msg.nonce))
  {
    var c := s.clients[e];
    var out := C.OnPunch(c, p.src, p.msg.sessionId, p.msg.nonce);
    hide Inv, BookOk, Sound, SameBook;
    SameBookRefl(c);
    if out == [] {
      QuietSound(s, e, c, out);
    } else {
      AnswerSound(s, e, p);
    }
  }

  lemma PunchAckSound(s: System, e: Endpoint, now: u32, p: Packet)
    requires e in s.clients && BookOk(s, e) && p in s.net && p.dst == e && p.msg.PunchAck?
    ensures var (d, out) := C.OnPunchAck(s.clients[e], now, p.src, p.msg.sessionId, p.msg.fromSlot, p.msg.nonce);
      Sound(s, e, d, out)
  {
    var c := s.clients[e];
    var (d, out) := C.OnPunchAck(c, now, p.src, p.msg.sessionId, p.msg.fromSlot, p.msg.nonce);
    if !C.AckMatches(c, p.msg.sessionId, p.msg.fromSlot, p.msg.nonce) {
      hide BookOk, Sound, SameBook, C.AckMatches;
      SameBookRefl(c);
      QuietSound(s, e, d, out);
    } else {
      var slot: Slot := p.msg.fromSlot;
      assert forall j: Slot :: j != slot ==> d.peer.At(j) == c.peer.At(j);
      var q := d.peer.At(slot);
      assert q.acked && q.chosen == p.src && q.nonce == c.peer.At(slot).nonce != 0 && p.msg.nonce == Word(q.nonce);
      assert q.pub == c.peer.At(slot).pub && q.priv == c.peer.At(slot).priv;
      assert p == Packet(p.src, e, PunchAck(d.sessionId, slot, Word(q.nonce)));
      forall o | o in out ensures SpokenTrue(After(s, e, d, out), Packet(e, o.to, o.msg)) {
        NeutralTrue(After(s, e, d, out), Packet(e, o.to, o.msg));
      }
      hide Home, HasHome, Sent, Quad.At, Quad.With, Word, SpokenTrue, C.ReportOf;
    }
  }

  lemma RouteSound(s: System, e: Endpoint, src: Endpoint, a: u8, b: u8, route: u8)
    requires Inv(s) && e in s.clients && BookOk(s, e) && Packet(src, e, PairRoute(a, b, route)) in s.net
    ensures Sound(s, e, C.OnPairRoute(s.clients[e], a, b, route), [])
  {
    var c := s.clients[e];
    BootstrapSettle.RouteVerdict(s, e, src, a, b, route);
    BootstrapSettle.LearnCases(c, a, b, route);
    hide Inv, BookOk, Sound, SameBook, C.OnPairRoute, BootstrapSettle.Learns;
    LearnBook(c, a, b, route, C.OnPairRoute(c, a, b, route));
    QuietSound(s, e, C.OnPairRoute(c, a, b, route), []);
  }

  lemma LearnBook(c: C.Client, a: Slot, b: Slot, route: u8, d: C.Client)
    requires BootstrapSettle.Learns(c, d, a, b, route)
    ensures SameBook(c, d)
  {
    hide SameBook, Quad.At, C.Known.At;
    forall j: Slot ensures SameEntry(c.peer.At(j), d.peer.At(j)) {
    }
    EntriesBook(c, d);
  }

  lemma EntriesBook(c: C.Client, d: C.Client)
    requires d.privateEp == c.privateEp && d.isHost == c.isHost && d.sessionId == c.sessionId
    requires forall j: Slot :: SameEntry(c.peer.At(j), d.peer.At(j))
    ensures SameBook(c, d)
  {
    assert SameEntry(c.peer.At(0), d.peer.At(0)) && SameEntry(c.peer.At(1), d.peer.At(1))
           && SameEntry(c.peer.At(2), d.peer.At(2)) && SameEntry(c.peer.At(3), d.peer.At(3));
  }

  lemma StartBook(c: C.Client, p: StartParams)
    ensures SameBook(c, C.OnStart(c, p).0) && forall o :: o in C.OnStart(c, p).1 ==> Neutral(o.msg)
  {
    hide SameBook;
    var d := C.OnStart(c, p).0;
    assert d.privateEp == c.privateEp && d.isHost == c.isHost && d.sessionId == c.sessionId && d.peer == c.peer;
    SamePeerBook(c, d);
  }

  lemma SamePeerBook(c: C.Client, d: C.Client)
    requires d.privateEp == c.privateEp && d.isHost == c.isHost && d.sessionId == c.sessionId && d.peer == c.peer
    ensures SameBook(c, d)
  {
  }

  /** Every deliverable message. */
  lemma ReceiveSound(s: System, e: Endpoint, now: u32, src: Endpoint, m: Msg)
    requires Inv(s) && e in s.clients && BookOk(s, e) && C.Active(s.clients[e]) && Packet(src, e, m) in s.net
    ensures var r := C.Receive(s.clients[e], now, src, m); Sound(s, e, r.0, r.1)
  {
    hide Inv, ClientInv, BookOk, Sound, SameBook, Neutral, C.OnHostResp, C.OnJoinResp, C.OnPeerIntro, C.OnPunch,
      C.OnPunchAck, C.OnPairRoute, C.OnStart, C.RejectName;
    var c := s.clients[e];
    InvClient(s, e);
    SameBookRefl(c);
    match m {
      case HostResp(id) => HostRespSound(s, e, id);
      case JoinResp(slot, np) => JoinRespSound(s, e, slot, np);
      case Reject(reason) =>
        FailBook(c, "REJECTED:" + C.RejectName(reason));
        QuietSound(s, e, C.Receive(c, now, src, m).0, []);
      case PeerIntro(slot, pub, priv) => IntroSound(s, e, now, src, slot, pub, priv);
      case Punch(_, _, _) => PunchSound(s, e, Packet(src, e, m));
      case PunchAck(_, _, _) => PunchAckSound(s, e, now, Packet(src, e, m));
      case PairRoute(a, b, route) => RouteSound(s, e, src, a, b, route);
      case Start(p) =>
        StartBook(c, p);
        QuietSound(s, e, C.OnStart(c, p).0, C.OnStart(c, p).1);
      case _ => QuietSound(s, e, c, []);
    }
  }

  lemma FailBook(c: C.Client, text: string)
    ensures SameBook(c, C.Fail(c, text))
  {
  }
}
