// The lobby protocol's messages, as the server and the clients see them after
// unpacking. The byte-level codec is in lobby_proto.dfy.

module LobbyTypes {
  import opened Basics

  datatype Endpoint = Endpoint(ip: u32, port: u16)

  const NO_ENDPOINT := Endpoint(0, 0)

  /** What a START carries: the match parameters every peer must share. */
  datatype StartParams = StartParams(seed: u32, arenaId: u8, numPlayers: u8, inputDelay: u8)

  const ROUTE_DIRECT: u8 := 0
  const ROUTE_RELAY: u8 := 1

  const REJ_BAD_SESSION: u8 := 1
  const REJ_FULL: u8 := 2
  const REJ_VERSION_MISMATCH: u8 := 3
  const REJ_EXPIRED: u8 := 4

  datatype Msg =
    | HostReq(netVersion: u32, numPlayers: u8, privateEp: Endpoint)
    | HostResp(sessionId: u16)
    | JoinReq(sessionId: u16, netVersion: u32, privateEp: Endpoint)
    | JoinResp(slot: u8, numPlayers: u8)
    | Reject(reason: u8)
    | PeerIntro(slot: u8, publicEp: Endpoint, privateEp: Endpoint)
    | Punch(sessionId: u16, fromSlot: u8, nonce: u32)
    | PunchAck(sessionId: u16, fromSlot: u8, nonce: u32)
    | PunchReport(sessionId: u16, slotA: u8, slotB: u8, ok: u8)
    | PairRoute(slotA: u8, slotB: u8, route: u8)
    | Relay(sessionId: u16, fromSlot: u8, toSlot: u8, payload: seq<u8>)
    | Game(sessionId: u16, fromSlot: u8, toSlot: u8, payload: seq<u8>)
    | Start(params: StartParams)
    | StartAck(sessionId: u16, slot: u8)
    | Keepalive(sessionId: u16, slot: u8)

  /** The generator's state as it travels in a message. */
  function Word(n: bv32): u32 {
    n as int
  }

  function Bits(x: u32): bv32 {
    x as bv32
  }

  lemma BitsBack(n: bv32)
    ensures Bits(Word(n)) == n
  {
  }

  lemma WordsDiffer(a: bv32, b: bv32)
    requires a != b
    ensures Word(a) != Word(b)
  {
    hide Word, Bits;
    BitsBack(a);
    BitsBack(b);
  }

  /** A message handed to the socket layer with its destination. */
  datatype Out = Out(to: Endpoint, msg: Msg)
}
