// The lobby's wire format: packing into a fixed buffer, unpacking hostile bytes,
// and how the two fit together.

module LobbyProto {
  import opened Basics
  import opened LobbyTypes

  const MAGIC: u32 := 0x41335256
  const VERSION: u8 := 1
  const HEADER: nat := 6
  const MAX_PACKET: nat := 1200
  const MAX_PAYLOAD := 1024
  const REQUEST_SIZE: nat := 32

  // ------------------------------------------------------------- byte order

  function B0(x: int): u8 { x % 256 }

  function B1(x: int): u8 { (x / 0x100) % 256 }

  function B2(x: int): u8 { (x / 0x100 / 0x100) % 256 }

  function B3(x: int): u8 { (x / 0x100 / 0x100 / 0x100) % 256 }

  function Join16(a: u8, b: u8): u16 {
    a + 0x100 * b
  }

  function Join32(a: u8, b: u8, c: u8, d: u8): u32 {
    a + 0x100 * (b + 0x100 * (c + 0x100 * d))
  }

  lemma Split16(x: u16)
    ensures Join16(B0(x), B1(x)) == x
  {
  }

  lemma Split32(x: u32)
    ensures Join32(B0(x), B1(x), B2(x), B3(x)) == x
  {
    var y := x / 0x100;
    var z := y / 0x100;
    var w := z / 0x100;
    assert x == B0(x) + 0x100 * y && y == B1(x) + 0x100 * z && z == B2(x) + 0x100 * w && w == B3(x);
  }

  lemma Bytes16(a: u8, b: u8)
    ensures B0(Join16(a, b)) == a && B1(Join16(a, b)) == b
  {
  }

  lemma Bytes32(a: u8, b: u8, c: u8, d: u8)
    ensures var x := Join32(a, b, c, d); B0(x) == a && B1(x) == b && B2(x) == c && B3(x) == d
  {
    var z := c + 0x100 * d;
    var y := b + 0x100 * z;
    var x := a + 0x100 * y;
    assert x / 0x100 == y && y / 0x100 == z && z / 0x100 == d;
  }

  // ---------------------------------------------------------------- packing

  function Code(m: Msg): (t: u8)
    ensures 1 <= t <= 15
  {
    match m
    case HostReq(_, _, _) => 1
    case HostResp(_) => 2
    case JoinReq(_, _, _) => 3
    case JoinResp(_, _) => 4
    case Reject(_) => 5
    case PeerIntro(_, _, _) => 6
    case Punch(_, _, _) => 7
    case PunchAck(_, _, _) => 8
    case PunchReport(_, _, _, _) => 9
    case PairRoute(_, _, _) => 10
    case Relay(_, _, _, _) => 11
    case Game(_, _, _, _) => 12
    case Start(_) => 13
    case StartAck(_, _) => 14
    case Keepalive(_, _) => 15
  }

  function Ep(e: Endpoint): (b: seq<u8>)
    ensures |b| == 6
  {
    [B0(e.ip), B1(e.ip), B2(e.ip), B3(e.ip), B0(e.port), B1(e.port)]
  }

  function Zeros(n: nat): seq<u8> {
    seq(n, _ => 0)
  }

  function Probe(id: u16, k: u8, n: u32): seq<u8> {
    [B0(id), B1(id), k, B0(n), B1(n), B2(n), B3(n)]
  }

  function Carried(id: u16, f: u8, t: u8, payload: seq<u8>): seq<u8> {
    [B0(id), B1(id), f, t, B0(|payload|), B1(|payload|)] + payload
  }

  /** Everything after the header. */
  function Body(m: Msg): seq<u8> {
    match m
    case HostReq(ver, np, priv) => [B0(ver), B1(ver), B2(ver), B3(ver), np] + Ep(priv) + Zeros(15)
    case HostResp(id) => [B0(id), B1(id)]
    case JoinReq(id, ver, priv) => [B0(id), B1(id), B0(ver), B1(ver), B2(ver), B3(ver)] + Ep(priv) + Zeros(14)
    case JoinResp(slot, np) => [slot, np]
    case Reject(reason) => [reason]
    case PeerIntro(slot, pub, priv) => [slot] + Ep(pub) + Ep(priv)
    case Punch(id, k, nonce) => Probe(id, k, nonce)
    case PunchAck(id, k, nonce) => Probe(id, k, nonce)
    case PunchReport(id, a, b, ok) => [B0(id), B1(id), a, b, ok]
    case PairRoute(a, b, route) => [a, b, route]
    case Relay(id, f, t, payload) => Carried(id, f, t, payload)
    case Game(id, f, t, payload) => Carried(id, f, t, payload)
    case Start(p) => [B0(p.seed), B1(p.seed), B2(p.seed), B3(p.seed), p.arenaId, p.numPlayers, p.inputDelay]
    case StartAck(id, slot) => [B0(id), B1(id), slot]
    case Keepalive(id, slot) => [B0(id), B1(id), slot]
  }

  function Header(m: Msg): (h: seq<u8>)
    ensures |h| == HEADER
  {
    [B0(MAGIC), B1(MAGIC), B2(MAGIC), B3(MAGIC), VERSION, Code(m)]
  }

  /** The only messages that do not pack are those with an oversized payload. */
  predicate Packable(m: Msg) {
    (m.Relay? || m.Game?) ==> |m.payload| <= MAX_PAYLOAD
  }

  function Pack(m: Msg): seq<u8> {
    Header(m) + Body(m)
  }

  // -------------------------------------------------------------- unpacking

  function Rd16(b: seq<u8>, i: nat): u16
    requires i + 2 <= |b|
  {
    Join16(b[i], b[i + 1])
  }

  function Rd32(b: seq<u8>, i: nat): u32
    requires i + 4 <= |b|
  {
    Join32(b[i], b[i + 1], b[i + 2], b[i + 3])
  }

  function RdEp(b: seq<u8>, i: nat): Endpoint
    requires i + 6 <= |b|
  {
    Endpoint(Rd32(b, i), Rd16(b, i + 4))
  }

  /** The body of a packet of type t, each size checked before it is read. */
  function Parse(t: u8, b: seq<u8>): Option<Msg> {
    match t
    case 1 => if |b| + HEADER < REQUEST_SIZE then None else Some(HostReq(Rd32(b, 0), b[4], RdEp(b, 5)))
    case 2 => if |b| < 2 then None else Some(HostResp(Rd16(b, 0)))
    case 3 => if |b| + HEADER < REQUEST_SIZE then None else Some(JoinReq(Rd16(b, 0), Rd32(b, 2), RdEp(b, 6)))
    case 4 => if |b| < 2 then None else Some(JoinResp(b[0], b[1]))
    case 5 => if |b| < 1 then None else Some(Reject(b[0]))
    case 6 => if |b| < 13 then None else Some(PeerIntro(b[0], RdEp(b, 1), RdEp(b, 7)))
    case 7 => if |b| < 7 then None else Some(Punch(Rd16(b, 0), b[2], Rd32(b, 3)))
    case 8 => if |b| < 7 then None else Some(PunchAck(Rd16(b, 0), b[2], Rd32(b, 3)))
    case 9 => if |b| < 5 then None else Some(PunchReport(Rd16(b, 0), b[2], b[3], b[4]))
    case 10 => if |b| < 3 then None else Some(PairRoute(b[0], b[1], b[2]))
    case 11 => if !Holds(b) then None else Some(Relay(Rd16(b, 0), b[2], b[3], b[6..6 + Rd16(b, 4)]))
    case 12 => if !Holds(b) then None else Some(Game(Rd16(b, 0), b[2], b[3], b[6..6 + Rd16(b, 4)]))
    case 13 => if |b| < 7 then None else Some(Start(StartParams(Rd32(b, 0), b[4], b[5], b[6])))
    case 14 => if |b| < 3 then None else Some(StartAck(Rd16(b, 0), b[2]))
    case 15 => if |b| < 3 then None else Some(Keepalive(Rd16(b, 0), b[2]))
    case _ => None
  }

  /** The body holds the payload it claims. */
  predicate Holds(b: seq<u8>) {
    |b| >= 6 && Rd16(b, 4) <= MAX_PAYLOAD && 6 + Rd16(b, 4) <= |b|
  }

  function Unpack(buf: seq<u8>): Option<Msg> {
    if |buf| < HEADER || Rd32(buf, 0) != MAGIC || buf[4] != VERSION then None else Parse(buf[5], buf[HEADER..])
  }

  // --------------------------------------------------------- pack then unpack

  lemma HeaderReads(m: Msg, rest: seq<u8>)
    ensures Unpack(Header(m) + rest) == Parse(Code(m), rest)
  {
    hide B0, B1, B2, B3, Parse, Join32, Code;
    var buf := Header(m) + rest;
    Split32(MAGIC);
    assert buf[HEADER..] == rest;
    assert Rd32(buf, 0) == Join32(B0(MAGIC), B1(MAGIC), B2(MAGIC), B3(MAGIC));
  }

  lemma EpReads(pre: seq<u8>, e: Endpoint, post: seq<u8>)
    ensures RdEp(pre + Ep(e) + post, |pre|) == e
  {
    var b := pre + Ep(e) + post;
    var k := |pre|;
    Split32(e.ip);
    Split16(e.port);
    hide B0, B1, B2, B3, Join32, Join16;
    assert forall j :: 0 <= j < 6 ==> b[k + j] == Ep(e)[j];
    assert b[k + 0] == B0(e.ip) && b[k + 1] == B1(e.ip) && b[k + 2] == B2(e.ip) && b[k + 3] == B3(e.ip)
           && b[k + 4] == B0(e.port) && b[k + 5] == B1(e.port);
  }

  lemma RequestReads(m: Msg, tail: seq<u8>)
    requires m.HostReq? || m.JoinReq?
    ensures Parse(Code(m), Body(m) + tail) == Some(m)
  {
    var b := Body(m) + tail;
    Split32(m.netVersion);
    if m.HostReq? {
      hide B0, B1, B2, B3, Join32, Join16;
      var pre := [B0(m.netVersion), B1(m.netVersion), B2(m.netVersion), B3(m.netVersion), m.numPlayers];
      assert b == pre + Ep(m.privateEp) + (Zeros(15) + tail);
      EpReads(pre, m.privateEp, Zeros(15) + tail);
      hide Ep;
    } else {
      Split16(m.sessionId);
      hide B0, B1, B2, B3, Join32, Join16;
      var v := m.netVersion;
      var pre := [B0(m.sessionId), B1(m.sessionId), B0(v), B1(v), B2(v), B3(v)];
      assert b == pre + Ep(m.privateEp) + (Zeros(14) + tail);
      EpReads(pre, m.privateEp, Zeros(14) + tail);
      hide Ep;
    }
  }

  lemma IntroReads(m: Msg, tail: seq<u8>)
    requires m.PeerIntro?
    ensures Parse(Code(m), Body(m) + tail) == Some(m)
  {
    var b := Body(m) + tail;
    assert b == [m.slot] + Ep(m.publicEp) + (Ep(m.privateEp) + tail);
    assert b == ([m.slot] + Ep(m.publicEp)) + Ep(m.privateEp) + tail;
    EpReads([m.slot], m.publicEp, Ep(m.privateEp) + tail);
    EpReads([m.slot] + Ep(m.publicEp), m.privateEp, tail);
    hide Ep, RdEp;
  }

  lemma CarriedReads(m: Msg, tail: seq<u8>)
    requires (m.Relay? || m.Game?) && Packable(m)
    ensures Parse(Code(m), Body(m) + tail) == Some(m)
  {
    var b := Body(m) + tail;
    Split16(m.sessionId);
    Split16(|m.payload|);
    hide B0, B1, B2, B3, Join32, Join16;
    assert b[6..6 + |m.payload|] == m.payload;
  }

  lemma ProbeReads(m: Msg, tail: seq<u8>)
    requires m.Punch? || m.PunchAck?
    ensures Parse(Code(m), Body(m) + tail) == Some(m)
  {
    hide B0, B1, B2, B3, Join32, Join16;
    Split16(m.sessionId);
    Split32(m.nonce);
  }

  lemma PlainReads(m: Msg, tail: seq<u8>)
    requires m.HostResp? || m.JoinResp? || m.Reject? || m.PunchReport? || m.PairRoute? || m.Start? || m.StartAck?
      || m.Keepalive?
    ensures Parse(Code(m), Body(m) + tail) == Some(m)
  {
    if m.Start? {
      Split32(m.params.seed);
    } else if m.HostResp? || m.PunchReport? || m.StartAck? || m.Keepalive? {
      Split16(m.sessionId);
    }
    hide B0, B1, B2, B3, Join32, Join16;
  }

  lemma BodyReads(m: Msg, tail: seq<u8>)
    requires Packable(m)
    ensures Parse(Code(m), Body(m) + tail) == Some(m)
  {
    hide Parse, Body, Packable;
    match m {
      case HostReq(_, _, _) => RequestReads(m, tail);
      case JoinReq(_, _, _) => RequestReads(m, tail);
      case PeerIntro(_, _, _) => IntroReads(m, tail);
      case Punch(_, _, _) => ProbeReads(m, tail);
      case PunchAck(_, _, _) => ProbeReads(m, tail);
      case Relay(_, _, _, _) => CarriedReads(m, tail);
      case Game(_, _, _, _) => CarriedReads(m, tail);
      case _ => PlainReads(m, tail);
    }
  }

  /** Every message that packs comes back from its packing, whatever follows it. */
  lemma RoundTrip(m: Msg, tail: seq<u8>)
    requires Packable(m)
    ensures Unpack(Pack(m) + tail) == Some(m)
  {
    hide Parse, Body, Unpack, Header;
    HeaderReads(m, Body(m) + tail);
    BodyReads(m, tail);
    assert Pack(m) + tail == Header(m) + (Body(m) + tail);
  }

  // ------------------------------------------------------------------- sizes

  /** The size of every packing, and which ones a forged request could provoke:
      all that the server sends of itself are smaller than a request. */
  lemma Sizes(m: Msg)
    ensures |Pack(m)| == HEADER + match m
      case HostReq(_, _, _) => 26 case HostResp(_) => 2 case JoinReq(_, _, _) => 26 case JoinResp(_, _) => 2
      case Reject(_) => 1 case PeerIntro(_, _, _) => 13 case Punch(_, _, _) => 7 case PunchAck(_, _, _) => 7
      case PunchReport(_, _, _, _) => 5 case PairRoute(_, _, _) => 3 case Relay(_, _, _, p) => 6 + |p|
      case Game(_, _, _, p) => 6 + |p| case Start(_) => 7 case StartAck(_, _) => 3 case Keepalive(_, _) => 3
    ensures Packable(m) ==> |Pack(m)| <= MAX_PACKET
    ensures m.HostReq? || m.JoinReq? ==> |Pack(m)| == REQUEST_SIZE
    ensures m.HostResp? || m.JoinResp? || m.Reject? || m.PeerIntro? || m.PairRoute? || m.Start? ==>
      |Pack(m)| < REQUEST_SIZE
  {
    hide B0, B1, B2, B3;
  }

  lemma ShortBody(m: Msg, k: nat)
    requires Packable(m) && k < |Body(m)|
    ensures Parse(Code(m), Body(m)[..k]) == None
  {
    var b := Body(m)[..k];
    if m.Relay? || m.Game? {
      Split16(|m.payload|);
    }
    hide B0, B1, B2, B3, Join32, Join16;
    if (m.Relay? || m.Game?) && k >= 6 {
      assert b[4] == B0(|m.payload|) && b[5] == B1(|m.payload|);
    }
  }

  /** Cut anywhere short of its end, a packing is refused. */
  lemma PrefixRefused(m: Msg, k: nat)
    requires Packable(m) && k < |Pack(m)|
    ensures Unpack(Pack(m)[..k]) == None
  {
    hide Parse, Body, B0, B1, B2, B3;
    if k >= HEADER {
      assert Pack(m)[..k] == Header(m) + Body(m)[..k - HEADER];
      HeaderReads(m, Body(m)[..k - HEADER]);
      ShortBody(m, k - HEADER);
    }
  }

  // --------------------------------------------------------- unpack then pack

  /** What is accepted packs again, and the payload lies inside the bytes given. */
  lemma AcceptedPacks(buf: seq<u8>)
    requires Unpack(buf).Some?
    ensures var m := Unpack(buf).value;
      && Packable(m) && |Pack(m)| <= |buf| && buf[5] == Code(m)
      && (m.Relay? || m.Game? ==> 12 + |m.payload| <= |buf| && m.payload == buf[12..12 + |m.payload|])
  {
    hide B0, B1, B2, B3, Join32, Pack;
    Sizes(Unpack(buf).value);
    var b := buf[HEADER..];
    var m := Unpack(buf).value;
    if m.Relay? || m.Game? {
      var k := Rd16(b, 4);
      assert m.payload == b[6..6 + k] && |m.payload| == k;
      SliceOfSlice(buf, HEADER, 6, k);
    }
  }

  lemma SliceOfSlice(s: seq<u8>, h: nat, i: nat, k: nat)
    requires h + i + k <= |s|
    ensures s[h..][i..i + k] == s[h + i..h + i + k]
  {
  }

  /** How much of a packing is read back: all of it, less the padding of a request. */
  function Significant(m: Msg): (k: nat)
    ensures k <= |Pack(m)|
  {
    Sizes(m);
    if m.HostReq? then 17 else if m.JoinReq? then 18 else |Pack(m)|
  }

  /** An accepted packet begins with exactly the packing of what was read from it: one
      form per message, up to a request's padding, which is skipped unread. */
  lemma AcceptedIsCanonical(buf: seq<u8>)
    requires Unpack(buf).Some?
    ensures var m := Unpack(buf).value;
      |Pack(m)| <= |buf| && buf[..Significant(m)] == Pack(m)[..Significant(m)]
  {
    hide Pack, Parse, Body, B0, B1, B2, B3, Join32, Code;
    AcceptedPacks(buf);
    Sizes(Unpack(buf).value);
    var m := Unpack(buf).value;
    var b := buf[HEADER..];
    BodyCanonical(buf[5], b);
    MagicBytes(buf);
    PackIs(m);
    var k := Significant(m);
    assert buf[..HEADER] == Header(m);
    assert buf[..k] == buf[..HEADER] + b[..k - HEADER];
    assert Pack(m)[..k] == Header(m) + Body(m)[..k - HEADER];
  }

  lemma PackIs(m: Msg)
    ensures Pack(m) == Header(m) + Body(m) && |Pack(m)| == HEADER + |Body(m)|
  {
  }

  lemma MagicBytes(buf: seq<u8>)
    requires |buf| >= HEADER && Rd32(buf, 0) == MAGIC
    ensures buf[0] == B0(MAGIC) && buf[1] == B1(MAGIC) && buf[2] == B2(MAGIC) && buf[3] == B3(MAGIC)
  {
    Bytes32(buf[0], buf[1], buf[2], buf[3]);
  }

  lemma EpCanonical(b: seq<u8>, i: nat)
    requires i + 6 <= |b|
    ensures b[i..i + 6] == Ep(RdEp(b, i))
  {
    Bytes32(b[i], b[i + 1], b[i + 2], b[i + 3]);
    Bytes16(b[i + 4], b[i + 5]);
    hide B0, B1, B2, B3, Join32, Join16;
  }

  /** The part of a body that is read back is the packing's. */
  predicate BodyBack(t: u8, b: seq<u8>)
    requires Parse(t, b).Some?
  {
    var m := Parse(t, b).value;
    var k := Significant(m) - HEADER;
    0 <= k <= |Body(m)| && k <= |b| && b[..k] == Body(m)[..k]
  }

  lemma BodyCanonical(t: u8, b: seq<u8>)
    requires Parse(t, b).Some?
    ensures BodyBack(t, b)
  {
    hide BodyBack, Body, Parse;
    if t == 6 {
      IntroCanonical(b);
    } else if t == 7 || t == 8 {
      ProbeCanonical(t, b);
    } else if t == 1 {
      HostReqCanonical(b);
    } else if t == 3 {
      JoinReqCanonical(b);
    } else {
      PlainCanonical(t, b);
    }
  }

  lemma PlainCanonical(t: u8, b: seq<u8>)
    requires Parse(t, b).Some? && t != 1 && t != 3 && t != 6 && t != 7 && t != 8
    ensures BodyBack(t, b)
  {
    hide B0, B1, B2, B3, Join32, Join16, Pack, Significant;
    var m := Parse(t, b).value;
    Whole(m);
    if |b| >= 2 {
      Bytes16(b[0], b[1]);
    }
    if |b| >= 4 {
      Bytes32(b[0], b[1], b[2], b[3]);
    }
    if |b| >= 6 {
      Bytes16(b[4], b[5]);
    }
    assert |Body(m)| <= |b| && b[..|Body(m)|] == Body(m);
  }

  lemma Whole(m: Msg)
    ensures m.HostReq? ==> Significant(m) == HEADER + 11
    ensures m.JoinReq? ==> Significant(m) == HEADER + 12
    ensures !m.HostReq? && !m.JoinReq? ==> Significant(m) == HEADER + |Body(m)|
  {
    hide Body;
    PackIs(m);
  }

  lemma ProbeCanonical(t: u8, b: seq<u8>)
    requires Parse(t, b).Some? && (t == 7 || t == 8)
    ensures BodyBack(t, b)
  {
    Whole(Parse(t, b).value);
    Bytes16(b[0], b[1]);
    Bytes32(b[3], b[4], b[5], b[6]);
    hide B0, B1, B2, B3, Join32, Join16, Significant;
    assert b[..7] == Probe(Rd16(b, 0), b[2], Rd32(b, 3));
  }

  lemma HostReqCanonical(b: seq<u8>)
    requires Parse(1, b).Some?
    ensures BodyBack(1, b)
  {
    Whole(Parse(1, b).value);
    Bytes32(b[0], b[1], b[2], b[3]);
    EpCanonical(b, 5);
    hide Ep, RdEp, B0, B1, B2, B3, Join32, Significant;
    assert b[..11] == [b[0], b[1], b[2], b[3], b[4]] + b[5..11];
  }

  lemma JoinReqCanonical(b: seq<u8>)
    requires Parse(3, b).Some?
    ensures BodyBack(3, b)
  {
    Whole(Parse(3, b).value);
    Bytes16(b[0], b[1]);
    Bytes32(b[2], b[3], b[4], b[5]);
    EpCanonical(b, 6);
    hide Ep, RdEp, B0, B1, B2, B3, Join32, Join16, Significant;
    assert b[..12] == [b[0], b[1], b[2], b[3], b[4], b[5]] + b[6..12];
  }

  lemma IntroCanonical(b: seq<u8>)
    requires Parse(6, b).Some?
    ensures BodyBack(6, b)
  {
    Whole(Parse(6, b).value);
    EpCanonical(b, 1);
    EpCanonical(b, 7);
    hide Ep, RdEp, Significant;
    assert b[..13] == [b[0]] + b[1..7] + b[7..13];
  }
}
