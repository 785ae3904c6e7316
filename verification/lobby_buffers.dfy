// Packing and unpacking on real buffers: byte-by-byte writes into a fixed array,
// and reads that never look past the length given.

module LobbyBuffers {
  import opened Basics
  import opened LobbyTypes
  import opened LobbyProto

  method Wr16(p: array<u8>, i: nat, v: int)
    requires i + 2 <= p.Length
    modifies p
    ensures p[..] == old(p[..i]) + [B0(v), B1(v)] + old(p[i + 2..])
  {
    p[i] := B0(v);
    p[i + 1] := B1(v);
  }

  method Wr32(p: array<u8>, i: nat, v: int)
    requires i + 4 <= p.Length
    modifies p
    ensures p[..] == old(p[..i]) + [B0(v), B1(v), B2(v), B3(v)] + old(p[i + 4..])
  {
    p[i] := B0(v);
    p[i + 1] := B1(v);
    p[i + 2] := B2(v);
    p[i + 3] := B3(v);
  }

  method WrEp(p: array<u8>, i: nat, e: Endpoint)
    requires i + 6 <= p.Length
    modifies p
    ensures p[..] == old(p[..i]) + Ep(e) + old(p[i + 6..])
  {
    hide B0, B1, B2, B3;
    Wr32(p, i, e.ip);
    Wr16(p, i + 4, e.port);
  }

  /** memcpy. */
  method Copy(p: array<u8>, i: nat, src: seq<u8>)
    requires i + |src| <= p.Length
    modifies p
    ensures p[..] == old(p[..i]) + src + old(p[i + |src|..])
  {
    var k := 0;
    while k < |src|
      invariant 0 <= k <= |src|
      invariant forall j :: 0 <= j < p.Length ==> p[j] == if i <= j < i + k then src[j - i] else old(p[j])
    {
      p[i + k] := src[k];
      k := k + 1;
    }
  }

  /** memset to zero. */
  method Clear(p: array<u8>, i: nat, n: nat)
    requires i + n <= p.Length
    modifies p
    ensures p[..] == old(p[..i]) + Zeros(n) + old(p[i + n..])
  {
    var k := 0;
    while k < n
      invariant 0 <= k <= n
      invariant forall j :: 0 <= j < p.Length ==> p[j] == if i <= j < i + k then 0 else old(p[j])
    {
      p[i + k] := 0;
      k := k + 1;
    }
  }

  /** lobby_pack: the number of bytes written, 0 when the payload is too long. */
  method PackInto(m: Msg, out: array<u8>) returns (n: nat)
    requires out.Length == MAX_PACKET
    modifies out
    ensures n == if Packable(m) then |Pack(m)| else 0
    ensures Packable(m) ==> n <= MAX_PACKET && out[..n] == Pack(m)
  {
    hide Header, Body, Code, B0, B1, B2, B3;
    WriteHeader(out, m);
    n := WriteBody(out, m);
    if Packable(m) {
      assert out[..n] == out[..6] + out[6..n];
    }
  }

  method WriteHeader(out: array<u8>, m: Msg)
    requires out.Length == MAX_PACKET
    modifies out
    ensures out[..6] == Header(m)
  {
    hide B0, B1, B2, B3, Code;
    Wr32(out, 0, MAGIC);
    out[4] := VERSION;
    out[5] := Code(m);
  }

  method WriteBody(out: array<u8>, m: Msg) returns (n: nat)
    requires out.Length == MAX_PACKET
    modifies out
    ensures out[..6] == old(out[..6]) && n <= MAX_PACKET
    ensures if Packable(m) then n == 6 + |Body(m)| && out[6..n] == Body(m) else n == 0
  {
    hide Body, Probe, Carried;
    match m {
      case HostReq(_, _, _) => n := WriteRequest(out, m);
      case JoinReq(_, _, _) => n := WriteRequest(out, m);
      case PeerIntro(_, _, _) => n := WriteIntro(out, m);
      case Punch(id, k, nonce) =>
        n := WriteProbe(out, id, k, nonce);
        ProbeBody(m);
      case PunchAck(id, k, nonce) =>
        n := WriteProbe(out, id, k, nonce);
        ProbeBody(m);
      case Relay(id, f, t, payload) =>
        n := WriteCarried(out, id, f, t, payload);
        CarriedBody(m);
      case Game(id, f, t, payload) =>
        n := WriteCarried(out, id, f, t, payload);
        CarriedBody(m);
      case _ => n := WriteSmall(out, m);
    }
  }

  lemma ProbeBody(m: Msg)
    requires m.Punch? || m.PunchAck?
    ensures Body(m) == Probe(m.sessionId, m.fromSlot, m.nonce)
  {
  }

  lemma CarriedBody(m: Msg)
    requires m.Relay? || m.Game?
    ensures Body(m) == Carried(m.sessionId, m.fromSlot, m.toSlot, m.payload)
  {
  }

  /** The two requests, padded to REQUEST_SIZE. */
  method WriteRequest(out: array<u8>, m: Msg) returns (n: nat)
    requires out.Length == MAX_PACKET && (m.HostReq? || m.JoinReq?)
    modifies out
    ensures n == REQUEST_SIZE && out[..6] == old(out[..6]) && out[6..n] == Body(m)
  {
    hide B0, B1, B2, B3, Ep;
    n := REQUEST_SIZE;
    if m.HostReq? {
      Wr32(out, 6, m.netVersion);
      out[10] := m.numPlayers;
      WrEp(out, 11, m.privateEp);
      Clear(out, 17, REQUEST_SIZE - 17);
    } else {
      Wr16(out, 6, m.sessionId);
      Wr32(out, 8, m.netVersion);
      WrEp(out, 12, m.privateEp);
      Clear(out, 18, REQUEST_SIZE - 18);
    }
  }

  method WriteIntro(out: array<u8>, m: Msg) returns (n: nat)
    requires out.Length == MAX_PACKET && m.PeerIntro?
    modifies out
    ensures n == 19 && out[..6] == old(out[..6]) && out[6..n] == Body(m)
  {
    hide Ep;
    out[6] := m.slot;
    WrEp(out, 7, m.publicEp);
    WrEp(out, 13, m.privateEp);
    n := 19;
  }

  method WriteSmall(out: array<u8>, m: Msg) returns (n: nat)
    requires out.Length == MAX_PACKET
    requires m.HostResp? || m.JoinResp? || m.Reject? || m.PunchReport? || m.PairRoute? || m.Start? || m.StartAck?
      || m.Keepalive?
    modifies out
    ensures n == 6 + |Body(m)| && n <= MAX_PACKET && out[..6] == old(out[..6]) && out[6..n] == Body(m)
  {
    hide B0, B1, B2, B3;
    match m {
      case HostResp(id) =>
        Wr16(out, 6, id);
        n := 8;
      case JoinResp(slot, np) =>
        out[6], out[7] := slot, np;
        n := 8;
      case Reject(reason) =>
        out[6] := reason;
        n := 7;
      case PunchReport(id, a, b, ok) =>
        Wr16(out, 6, id);
        out[8], out[9], out[10] := a, b, ok;
        n := 11;
      case PairRoute(a, b, route) =>
        out[6], out[7], out[8] := a, b, route;
        n := 9;
      case Start(p) =>
        Wr32(out, 6, p.seed);
        out[10], out[11], out[12] := p.arenaId, p.numPlayers, p.inputDelay;
        n := 13;
      case StartAck(id, slot) =>
        Wr16(out, 6, id);
        out[8] := slot;
        n := 9;
      case Keepalive(id, slot) =>
        Wr16(out, 6, id);
        out[8] := slot;
        n := 9;
    }
  }

  method WriteProbe(out: array<u8>, id: u16, k: u8, nonce: u32) returns (n: nat)
    requires out.Length == MAX_PACKET
    modifies out
    ensures n == 13 && out[..6] == old(out[..6]) && out[6..13] == Probe(id, k, nonce)
  {
    hide B0, B1, B2, B3;
    Wr16(out, 6, id);
    out[8] := k;
    Wr32(out, 9, nonce);
    n := 13;
  }

  method WriteCarried(out: array<u8>, id: u16, f: u8, t: u8, payload: seq<u8>) returns (n: nat)
    requires out.Length == MAX_PACKET
    modifies out
    ensures |payload| > MAX_PAYLOAD ==> n == 0 && out[..] == old(out[..])
    ensures |payload| <= MAX_PAYLOAD ==>
      n == 12 + |payload| && out[..6] == old(out[..6]) && out[6..n] == Carried(id, f, t, payload)
  {
    hide B0, B1;
    if |payload| > MAX_PAYLOAD {
      return 0;
    }
    Wr16(out, 6, id);
    out[8] := f;
    out[9] := t;
    Wr16(out, 10, |payload|);
    Copy(out, 12, payload);
    n := 12 + |payload|;
  }

  method ReadEp(buf: array<u8>, len: nat, i: nat) returns (e: Endpoint)
    requires HEADER + i + 6 <= len <= buf.Length
    ensures e == RdEp(buf[..len][HEADER..], i)
  {
    hide Join16, Join32;
    var k := HEADER + i;
    e := Endpoint(Join32(buf[k], buf[k + 1], buf[k + 2], buf[k + 3]), Join16(buf[k + 4], buf[k + 5]));
  }

  /** lobby_unpack: the answer depends on the first `len` bytes alone. */
  method UnpackFrom(buf: array<u8>, len: nat) returns (r: Option<Msg>)
    requires len <= buf.Length
    ensures r == Unpack(buf[..len])
  {
    hide Join16, Join32, RdEp;
    if len < HEADER || Join32(buf[0], buf[1], buf[2], buf[3]) != MAGIC || buf[4] != VERSION {
      return None;
    }
    var t := buf[5];
    var body := len - HEADER;
    ghost var b := buf[..len][HEADER..];
    assert |b| == body && Unpack(buf[..len]) == Parse(t, b);
    assert forall i :: 0 <= i < body ==> b[i] == buf[HEADER + i];
    if t == 1 || t == 3 {
      if len < REQUEST_SIZE {
        return None;
      }
      if t == 1 {
        var e := ReadEp(buf, len, 5);
        return Some(HostReq(Join32(buf[6], buf[7], buf[8], buf[9]), buf[10], e));
      }
      var e := ReadEp(buf, len, 6);
      return Some(JoinReq(Join16(buf[6], buf[7]), Join32(buf[8], buf[9], buf[10], buf[11]), e));
    }
    if t == 6 {
      if body < 13 {
        return None;
      }
      var pub := ReadEp(buf, len, 1);
      var priv := ReadEp(buf, len, 7);
      return Some(PeerIntro(buf[6], pub, priv));
    }
    if t == 11 || t == 12 {
      if body < 6 {
        return None;
      }
      var pl := Join16(buf[10], buf[11]);
      if pl > MAX_PAYLOAD || body < 6 + pl {
        return None;
      }
      var payload := buf[12..12 + pl];
      assert payload == b[6..6 + pl];
      var id := Join16(buf[6], buf[7]);
      return Some(if t == 11 then Relay(id, buf[8], buf[9], payload) else Game(id, buf[8], buf[9], payload));
    }
    r := UnpackSmall(buf, len, t);
  }

  /** The fixed-size bodies without endpoints. */
  method UnpackSmall(buf: array<u8>, len: nat, t: u8) returns (r: Option<Msg>)
    requires HEADER <= len <= buf.Length && t !in {1, 3, 6, 11, 12}
    ensures r == Parse(t, buf[..len][HEADER..])
  {
    hide Join16, Join32;
    var body := len - HEADER;
    ghost var b := buf[..len][HEADER..];
    assert |b| == body;
    assert forall i :: 0 <= i < body ==> b[i] == buf[HEADER + i];
    if t == 2 {
      r := if body < 2 then None else Some(HostResp(Join16(buf[6], buf[7])));
    } else if t == 4 {
      r := if body < 2 then None else Some(JoinResp(buf[6], buf[7]));
    } else if t == 5 {
      r := if body < 1 then None else Some(Reject(buf[6]));
    } else if t == 7 || t == 8 {
      if body < 7 {
        return None;
      }
      var id, nonce := Join16(buf[6], buf[7]), Join32(buf[9], buf[10], buf[11], buf[12]);
      r := Some(if t == 7 then Punch(id, buf[8], nonce) else PunchAck(id, buf[8], nonce));
    } else if t == 9 {
      r := if body < 5 then None else Some(PunchReport(Join16(buf[6], buf[7]), buf[8], buf[9], buf[10]));
    } else if t == 10 {
      r := if body < 3 then None else Some(PairRoute(buf[6], buf[7], buf[8]));
    } else if t == 13 {
      r := if body < 7 then None
           else Some(Start(StartParams(Join32(buf[6], buf[7], buf[8], buf[9]), buf[10], buf[11], buf[12])));
    } else if t == 14 || t == 15 {
      if body < 3 {
        return None;
      }
      var id := Join16(buf[6], buf[7]);
      r := Some(if t == 14 then StartAck(id, buf[8]) else Keepalive(id, buf[8]));
    } else {
      r := None;
    }
  }
}
