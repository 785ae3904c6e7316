// Lobby codes: fifteen base-32 symbols carrying a server endpoint, a session id
// and a CRC-8, as in lobby_code_encode and lobby_code_decode.

/** The CRC-8 register (polynomial 0x07) seen as eight bits over GF(2). */
module Crc8 {

  datatype Reg = Reg(b7: bool, b6: bool, b5: bool, b4: bool, b3: bool, b2: bool, b1: bool, b0: bool)

  const ZERO := Reg(false, false, false, false, false, false, false, false)

  function Bit(c: bv8, k: int): bool {
    match k
    case 0 => c & 0x80 != 0
    case 1 => c & 0x40 != 0
    case 2 => c & 0x20 != 0
    case 3 => c & 0x10 != 0
    case 4 => c & 0x08 != 0
    case 5 => c & 0x04 != 0
    case 6 => c & 0x02 != 0
    case _ => c & 0x01 != 0
  }

  function RegOf(c: bv8): Reg {
    Reg(Bit(c, 0), Bit(c, 1), Bit(c, 2), Bit(c, 3), Bit(c, 4), Bit(c, 5), Bit(c, 6), Bit(c, 7))
  }

  /** One shift of the C loop body. */
  function ShiftByte(c: bv8): bv8 {
    if c & 0x80 != 0 then (c << 1) ^ 0x07 else c << 1
  }

  function Shift(r: Reg): Reg {
    Reg(r.b6, r.b5, r.b4, r.b3, r.b2, r.b1 != r.b7, r.b0 != r.b7, r.b7)
  }

  function Xor(r: Reg, s: Reg): Reg {
    Reg(r.b7 != s.b7, r.b6 != s.b6, r.b5 != s.b5, r.b4 != s.b4,
        r.b3 != s.b3, r.b2 != s.b2, r.b1 != s.b1, r.b0 != s.b0)
  }

  /** Feeding one message bit into the register. */
  function Feed(r: Reg, b: bool): Reg {
    Shift(r.(b7 := r.b7 != b))
  }

  function FeedAll(r: Reg, bits: seq<bool>): Reg
    decreases |bits|
  {
    if bits == [] then r else FeedAll(Feed(r, bits[0]), bits[1..])
  }

  lemma {:induction false} FeedAllAppend(r: Reg, a: seq<bool>, b: seq<bool>)
    ensures FeedAll(r, a + b) == FeedAll(FeedAll(r, a), b)
    decreases |a|
  {
    if a == [] {
      assert a + b == b;
    } else {
      assert (a + b)[1..] == a[1..] + b;
      FeedAllAppend(Feed(r, a[0]), a[1..], b);
    }
  }

  // The byte register and the bit register agree.

  lemma ShiftAgrees(c: bv8)
    ensures RegOf(ShiftByte(c)) == Shift(RegOf(c))
  {
  }

  lemma RegOfInjective(c: bv8, d: bv8)
    requires RegOf(c) == RegOf(d)
    ensures c == d
  {
  }

  lemma XorHigh(c: bv8, d: bv8)
    ensures Bit(c ^ d, 0) == (Bit(c, 0) != Bit(d, 0)) && Bit(c ^ d, 1) == (Bit(c, 1) != Bit(d, 1))
    ensures Bit(c ^ d, 2) == (Bit(c, 2) != Bit(d, 2)) && Bit(c ^ d, 3) == (Bit(c, 3) != Bit(d, 3))
  {
  }

  lemma XorLow(c: bv8, d: bv8)
    ensures Bit(c ^ d, 4) == (Bit(c, 4) != Bit(d, 4)) && Bit(c ^ d, 5) == (Bit(c, 5) != Bit(d, 5))
    ensures Bit(c ^ d, 6) == (Bit(c, 6) != Bit(d, 6)) && Bit(c ^ d, 7) == (Bit(c, 7) != Bit(d, 7))
  {
  }

  lemma XorAgrees(c: bv8, d: bv8)
    ensures RegOf(c ^ d) == Xor(RegOf(c), RegOf(d))
  {
    hide Bit;
    XorHigh(c, d);
    XorLow(c, d);
  }

  function Up(s: Reg): Reg {
    Reg(s.b6, s.b5, s.b4, s.b3, s.b2, s.b1, s.b0, false)
  }

  /** A byte xored in up front comes out one bit per shift. */
  lemma Peel(r: Reg, s: Reg)
    ensures Shift(Xor(r, s)) == Xor(Feed(r, s.b7), Up(s))
  {
  }

  lemma XorZero(r: Reg)
    ensures Xor(r, ZERO) == r
  {
  }

  function EightShifts(r: Reg): Reg {
    Shift(Shift(Shift(Shift(Shift(Shift(Shift(Shift(r))))))))
  }

  function FeedByte(r: Reg, s: Reg): Reg {
    Feed(Feed(Feed(Feed(Feed(Feed(Feed(Feed(r, s.b7), s.b6), s.b5), s.b4), s.b3), s.b2), s.b1), s.b0)
  }

  /** Eight shifts after xoring a byte in are the byte's bits fed one by one. */
  lemma ByteIsEightBits(r: Reg, s: Reg)
    ensures EightShifts(Xor(r, s)) == FeedByte(r, s)
  {
    hide Shift, Feed, Xor;
    var r1, s1 := Feed(r, s.b7), Up(s);
    var r2, s2 := Feed(r1, s.b6), Up(s1);
    var r3, s3 := Feed(r2, s.b5), Up(s2);
    var r4, s4 := Feed(r3, s.b4), Up(s3);
    var r5, s5 := Feed(r4, s.b3), Up(s4);
    var r6, s6 := Feed(r5, s.b2), Up(s5);
    var r7, s7 := Feed(r6, s.b1), Up(s6);
    Peel(r, s);
    Peel(r1, s1);
    Peel(r2, s2);
    Peel(r3, s3);
    Peel(r4, s4);
    Peel(r5, s5);
    Peel(r6, s6);
    Peel(r7, s7);
    XorZero(FeedByte(r, s));
  }

  lemma FeedAllCons(r: Reg, b: bool, rest: seq<bool>)
    ensures FeedAll(r, [b] + rest) == FeedAll(Feed(r, b), rest)
  {
    assert ([b] + rest)[1..] == rest;
  }

  /** The register never forgets: equal bits keep different registers different. */
  lemma FeedInjective(r: Reg, s: Reg, b: bool)
    requires Feed(r, b) == Feed(s, b)
    ensures r == s
  {
  }
}

/** Endpoint and session id as human-typed text and back. */
module LobbyCode {
  import opened Basics
  import opened LobbyTypes
  import opened Crc8

  const CODE_LEN := 17
  const ALPHABET := "0123456789ABCDEFGHJKMNPQRSTVWXYZ"

  /** A base-32 digit. */
  type Symbol = v: int | 0 <= v < 32

  // ---------------------------------------------------------------- payload

  function Byte(x: int): bv8 {
    (x % 256) as bv8
  }

  /** Address, port and session id, big-endian. */
  function Pack(server: Endpoint, id: u16): seq<bv8> {
    [Byte(server.ip / 0x100_0000), Byte(server.ip / 0x1_0000), Byte(server.ip / 0x100), Byte(server.ip),
     Byte(server.port / 0x100), Byte(server.port), Byte(id / 0x100), Byte(id)]
  }

  function Four(a: u8, b: u8, c: u8, d: u8): u32 {
    a * 0x100_0000 + b * 0x1_0000 + c * 0x100 + d
  }

  function Two(a: u8, b: u8): u16 {
    a * 0x100 + b
  }

  function Unpack(d: seq<bv8>): (Endpoint, u16)
    requires |d| >= 8
  {
    (Endpoint(Four(d[0] as u8, d[1] as u8, d[2] as u8, d[3] as u8), Two(d[4] as u8, d[5] as u8)),
     Two(d[6] as u8, d[7] as u8))
  }

  function EightShiftsByte(c: bv8): bv8 {
    ShiftByte(ShiftByte(ShiftByte(ShiftByte(ShiftByte(ShiftByte(ShiftByte(ShiftByte(c))))))))
  }

  function CrcNext(c: bv8, p: bv8): bv8 {
    EightShiftsByte(c ^ p)
  }

  /** crc8 over a byte string. */
  function Crc(d: seq<bv8>): bv8
    decreases |d|
  {
    if d == [] then 0 else CrcNext(Crc(d[..|d| - 1]), d[|d| - 1])
  }

  function Payload(server: Endpoint, id: u16): seq<bv8> {
    Pack(server, id) + [Crc(Pack(server, id))]
  }

  // ------------------------------------------------------- bits and symbols

  function SymBit(v: int, k: int): bool {
    match k
    case 0 => v / 16 % 2 == 1
    case 1 => v / 8 % 2 == 1
    case 2 => v / 4 % 2 == 1
    case 3 => v / 2 % 2 == 1
    case _ => v % 2 == 1
  }

  function Digit(b: bool): int {
    if b then 1 else 0
  }

  function SymbolOf(a: bool, b: bool, c: bool, d: bool, e: bool): Symbol {
    16 * Digit(a) + 8 * Digit(b) + 4 * Digit(c) + 2 * Digit(d) + Digit(e)
  }

  function ByteOf(r: Reg): bv8 {
    (if r.b7 then 0x80 else 0) | (if r.b6 then 0x40 else 0) | (if r.b5 then 0x20 else 0) | (if r.b4 then 0x10 else 0)
    | (if r.b3 then 0x08 else 0) | (if r.b2 then 0x04 else 0) | (if r.b1 then 0x02 else 0) | (if r.b0 then 0x01 else 0)
  }

  /** Bit i of the payload, most significant first; zero past its end. */
  predicate ByteStream(d: seq<bv8>, i: nat) {
    i < 8 * |d| && Bit(d[i / 8], i % 8)
  }

  predicate SymStream(syms: seq<Symbol>, i: nat) {
    i < 5 * |syms| && SymBit(syms[i / 5], i % 5)
  }

  function SymbolAt(d: seq<bv8>, s: nat): Symbol {
    SymbolOf(ByteStream(d, 5 * s), ByteStream(d, 5 * s + 1), ByteStream(d, 5 * s + 2),
             ByteStream(d, 5 * s + 3), ByteStream(d, 5 * s + 4))
  }

  function ByteAt(syms: seq<Symbol>, j: nat): bv8 {
    ByteOf(Reg(SymStream(syms, 8 * j), SymStream(syms, 8 * j + 1), SymStream(syms, 8 * j + 2),
               SymStream(syms, 8 * j + 3), SymStream(syms, 8 * j + 4), SymStream(syms, 8 * j + 5),
               SymStream(syms, 8 * j + 6), SymStream(syms, 8 * j + 7)))
  }

  /** 72 bits as fifteen symbols, the last three bits zero. */
  function Symbols(d: seq<bv8>): seq<Symbol> {
    seq(15, s requires 0 <= s => SymbolAt(d, s))
  }

  function Bytes(syms: seq<Symbol>): seq<bv8> {
    seq(9, j requires 0 <= j => ByteAt(syms, j))
  }

  predicate PadZero(syms: seq<Symbol>) {
    !SymStream(syms, 72) && !SymStream(syms, 73) && !SymStream(syms, 74)
  }

  // ------------------------------------------------------------------- text

  function Letters(syms: seq<Symbol>): (s: string)
    ensures |s| == |syms|
  {
    seq(|syms|, i requires 0 <= i < |syms| => ALPHABET[syms[i]])
  }

  function Encode(server: Endpoint, id: u16): string {
    var t := Letters(Symbols(Payload(server, id)));
    t[..5] + "-" + t[5..10] + "-" + t[10..]
  }

  function Upper(c: char): char {
    if 'a' <= c <= 'z' then (c as int - 32) as char else c
  }

  function Search(u: char, i: nat): (v: int)
    ensures v == -1 || (i <= v < 32 && ALPHABET[v] == u)
    decreases 32 - i
  {
    if i >= 32 then -1 else if ALPHABET[i] == u then i else Search(u, i + 1)
  }

  /** b32val: the symbol's value, with O read as 0 and I, L as 1; -1 if not a symbol. */
  function B32Val(c: char): (v: int)
    ensures -1 <= v < 32
  {
    if '0' <= c <= '9' then c as int - '0' as int
    else
      var u := Upper(c);
      if u == 'O' then 0
      else if u == 'I' || u == 'L' then 1
      else Search(u, 10)
  }

  /** The symbols a text spells, dashes skipped; None if some character is no symbol. */
  function Spell(text: string): Option<seq<Symbol>>
    decreases |text|
  {
    if text == [] then Some([])
    else
      var last := text[|text| - 1];
      match Spell(text[..|text| - 1])
      case None => None
      case Some(syms) =>
        if last == '-' then Some(syms)
        else if B32Val(last) < 0 then None
        else Some(syms + [B32Val(last)])
  }

  function DecodeSymbols(syms: seq<Symbol>): Option<(Endpoint, u16)> {
    if |syms| != 15 || !PadZero(syms) then None
    else
      var d := Bytes(syms);
      if Crc(d[..8]) != d[8] then None else Some(Unpack(d))
  }

  function Decode(text: string): Option<(Endpoint, u16)> {
    match Spell(text)
    case None => None
    case Some(syms) => DecodeSymbols(syms)
  }

  // ------------------------------------------------------------ regrouping

  lemma ByteRoundTrip(x: int)
    requires 0 <= x < 256
    ensures Byte(x) as int == x
  {
  }

  lemma ByteOfBits(r: Reg)
    ensures RegOf(ByteOf(r)) == r
  {
  }

  lemma BitsOfByte(b: bv8)
    ensures ByteOf(RegOf(b)) == b
  {
    ByteOfBits(RegOf(b));
    RegOfInjective(ByteOf(RegOf(b)), b);
  }

  lemma BitsOfSymbol(a: bool, b: bool, c: bool, d: bool, e: bool)
    ensures var v := SymbolOf(a, b, c, d, e);
      SymBit(v, 0) == a && SymBit(v, 1) == b && SymBit(v, 2) == c && SymBit(v, 3) == d && SymBit(v, 4) == e
  {
  }

  lemma SymbolOfBits(v: Symbol)
    ensures SymbolOf(SymBit(v, 0), SymBit(v, 1), SymBit(v, 2), SymBit(v, 3), SymBit(v, 4)) == v
  {
  }

  lemma SymbolsStream(d: seq<bv8>, i: nat)
    requires |d| == 9 && i < 75
    ensures SymStream(Symbols(d), i) == ByteStream(d, i)
  {
    hide ByteStream, SymBit, SymbolOf;
    var s := i / 5;
    assert Symbols(d)[s] == SymbolAt(d, s);
    BitsOfSymbol(ByteStream(d, 5 * s), ByteStream(d, 5 * s + 1), ByteStream(d, 5 * s + 2),
                 ByteStream(d, 5 * s + 3), ByteStream(d, 5 * s + 4));
  }

  lemma ByteAtBits(syms: seq<Symbol>, j: nat)
    ensures var b := ByteAt(syms, j);
      && Bit(b, 0) == SymStream(syms, 8 * j) && Bit(b, 1) == SymStream(syms, 8 * j + 1)
      && Bit(b, 2) == SymStream(syms, 8 * j + 2) && Bit(b, 3) == SymStream(syms, 8 * j + 3)
      && Bit(b, 4) == SymStream(syms, 8 * j + 4) && Bit(b, 5) == SymStream(syms, 8 * j + 5)
      && Bit(b, 6) == SymStream(syms, 8 * j + 6) && Bit(b, 7) == SymStream(syms, 8 * j + 7)
  {
    hide Bit, ByteOf, SymStream;
    ByteOfBits(Reg(SymStream(syms, 8 * j), SymStream(syms, 8 * j + 1), SymStream(syms, 8 * j + 2),
                   SymStream(syms, 8 * j + 3), SymStream(syms, 8 * j + 4), SymStream(syms, 8 * j + 5),
                   SymStream(syms, 8 * j + 6), SymStream(syms, 8 * j + 7)));
  }

  lemma BytesStream(syms: seq<Symbol>, j: nat, k: nat)
    requires |syms| == 15 && j < 9 && k < 8
    ensures ByteStream(Bytes(syms), 8 * j + k) == SymStream(syms, 8 * j + k)
  {
    hide Bit, ByteAt, SymStream;
    ByteAtBits(syms, j);
    assert (8 * j + k) / 8 == j && (8 * j + k) % 8 == k;
    assert Bytes(syms)[j] == ByteAt(syms, j);
  }

  lemma BytesOfSymbols(d: seq<bv8>)
    requires |d| == 9
    ensures Bytes(Symbols(d)) == d && PadZero(Symbols(d))
  {
    hide Bit, ByteOf, SymStream, ByteStream;
    forall j | 0 <= j < 9 ensures Bytes(Symbols(d))[j] == d[j] {
      forall k | 0 <= k < 8 ensures SymStream(Symbols(d), 8 * j + k) == Bit(d[j], k) {
        SymbolsStream(d, 8 * j + k);
        ByteStreamAt(d, j, k);
      }
      BitsOfByte(d[j]);
      assert SymStream(Symbols(d), 8 * j + 0) == Bit(d[j], 0);
    }
    SymbolsStream(d, 72);
    SymbolsStream(d, 73);
    SymbolsStream(d, 74);
    ByteStreamEnds(d);
  }

  lemma ByteStreamAt(d: seq<bv8>, j: nat, k: nat)
    requires j < |d| && k < 8
    ensures ByteStream(d, 8 * j + k) == Bit(d[j], k)
  {
    assert (8 * j + k) / 8 == j && (8 * j + k) % 8 == k;
  }

  lemma ByteStreamEnds(d: seq<bv8>)
    requires |d| == 9
    ensures !ByteStream(d, 72) && !ByteStream(d, 73) && !ByteStream(d, 74)
  {
  }

  lemma SymStreamAt(syms: seq<Symbol>, s: nat, k: nat)
    requires s < |syms| && k < 5
    ensures SymStream(syms, 5 * s + k) == SymBit(syms[s], k)
  {
    assert (5 * s + k) / 5 == s && (5 * s + k) % 5 == k;
  }

  /** With zero padding the two streams agree on all 75 positions. */
  lemma StreamsAgree(syms: seq<Symbol>, i: nat)
    requires |syms| == 15 && PadZero(syms) && i < 75
    ensures ByteStream(Bytes(syms), i) == SymStream(syms, i)
  {
    hide Bit, ByteAt, SymBit;
    if i < 72 {
      BytesStream(syms, i / 8, i % 8);
    } else {
      ByteStreamEnds(Bytes(syms));
    }
  }

  lemma SymbolsOfBytes(syms: seq<Symbol>)
    requires |syms| == 15 && PadZero(syms)
    ensures Symbols(Bytes(syms)) == syms
  {
    hide Bit, ByteAt, ByteStream, SymStream, SymBit, SymbolOf;
    forall s | 0 <= s < 15 ensures Symbols(Bytes(syms))[s] == syms[s] {
      forall k | 0 <= k < 5 ensures ByteStream(Bytes(syms), 5 * s + k) == SymBit(syms[s], k) {
        StreamsAgree(syms, 5 * s + k);
        SymStreamAt(syms, s, k);
      }
      assert ByteStream(Bytes(syms), 5 * s + 0) == SymBit(syms[s], 0);
      SymbolOfBits(syms[s]);
    }
  }

  // ------------------------------------------------------------- syndrome

  /** One symbol's five bits through the CRC register. */
  function Absorb(r: Reg, v: Symbol): Reg {
    Feed(Feed(Feed(Feed(Feed(r, SymBit(v, 0)), SymBit(v, 1)), SymBit(v, 2)), SymBit(v, 3)), SymBit(v, 4))
  }

  function AbsorbAll(syms: seq<Symbol>): Reg
    decreases |syms|
  {
    if syms == [] then ZERO else Absorb(AbsorbAll(syms[..|syms| - 1]), syms[|syms| - 1])
  }

  lemma FeedFive(r: Reg, a: bool, b: bool, c: bool, d: bool, e: bool)
    ensures FeedAll(r, [a, b, c, d, e]) == Feed(Feed(Feed(Feed(Feed(r, a), b), c), d), e)
  {
    hide Feed;
    FeedAllCons(r, a, [b, c, d, e]);
    FeedAllCons(Feed(r, a), b, [c, d, e]);
    FeedAllCons(Feed(Feed(r, a), b), c, [d, e]);
    FeedAllCons(Feed(Feed(Feed(r, a), b), c), d, [e]);
    FeedAllCons(Feed(Feed(Feed(Feed(r, a), b), c), d), e, []);
    assert [a] + [b, c, d, e] == [a, b, c, d, e] && [b] + [c, d, e] == [b, c, d, e];
    assert [c] + [d, e] == [c, d, e] && [d] + [e] == [d, e] && [e] + [] == [e];
  }

  function SymBits(syms: seq<Symbol>, n: nat): seq<bool> {
    seq(n, i requires 0 <= i => SymStream(syms, i))
  }

  function ByteBits(d: seq<bv8>, n: nat): seq<bool> {
    seq(n, i requires 0 <= i => ByteStream(d, i))
  }

  lemma {:induction false} AbsorbAllIsStream(syms: seq<Symbol>, n: nat)
    requires n <= |syms|
    ensures AbsorbAll(syms[..n]) == FeedAll(ZERO, SymBits(syms, 5 * n))
    decreases n
  {
    hide Feed, SymBit, SymStream;
    if n > 0 {
      var v := syms[n - 1];
      AbsorbAllIsStream(syms, n - 1);
      assert syms[..n][..n - 1] == syms[..n - 1];
      forall k | 0 <= k < 5 ensures SymStream(syms, 5 * (n - 1) + k) == SymBit(v, k) {
        SymStreamAt(syms, n - 1, k);
      }
      var five := [SymBit(v, 0), SymBit(v, 1), SymBit(v, 2), SymBit(v, 3), SymBit(v, 4)];
      assert SymStream(syms, 5 * (n - 1) + 0) == SymBit(v, 0);
      assert SymBits(syms, 5 * n) == SymBits(syms, 5 * (n - 1)) + five;
      FeedAllAppend(ZERO, SymBits(syms, 5 * (n - 1)), five);
      FeedFive(FeedAll(ZERO, SymBits(syms, 5 * (n - 1))), five[0], five[1], five[2], five[3], five[4]);
    }
  }

  lemma EightShiftsAgree(c: bv8)
    ensures RegOf(EightShiftsByte(c)) == EightShifts(RegOf(c))
  {
    hide ShiftByte, Shift, RegOf;
    var c1 := ShiftByte(c);
    var c2 := ShiftByte(c1);
    var c3 := ShiftByte(c2);
    var c4 := ShiftByte(c3);
    var c5 := ShiftByte(c4);
    var c6 := ShiftByte(c5);
    var c7 := ShiftByte(c6);
    ShiftAgrees(c);
    ShiftAgrees(c1);
    ShiftAgrees(c2);
    ShiftAgrees(c3);
    ShiftAgrees(c4);
    ShiftAgrees(c5);
    ShiftAgrees(c6);
    ShiftAgrees(c7);
  }

  lemma FeedThree(r: Reg, a: bool, b: bool, c: bool)
    ensures FeedAll(r, [a, b, c]) == Feed(Feed(Feed(r, a), b), c)
  {
    hide Feed;
    FeedAllCons(r, a, [b, c]);
    FeedAllCons(Feed(r, a), b, [c]);
    FeedAllCons(Feed(Feed(r, a), b), c, []);
    assert [a] + [b, c] == [a, b, c] && [b] + [c] == [b, c] && [c] + [] == [c];
  }

  lemma FeedEight(r: Reg, s: Reg)
    ensures FeedAll(r, [s.b7, s.b6, s.b5, s.b4, s.b3, s.b2, s.b1, s.b0]) == FeedByte(r, s)
  {
    hide Feed;
    var front, back := [s.b7, s.b6, s.b5, s.b4, s.b3], [s.b2, s.b1, s.b0];
    assert front + back == [s.b7, s.b6, s.b5, s.b4, s.b3, s.b2, s.b1, s.b0];
    FeedAllAppend(r, front, back);
    FeedFive(r, s.b7, s.b6, s.b5, s.b4, s.b3);
    FeedThree(FeedAll(r, front), s.b2, s.b1, s.b0);
  }

  lemma CrcNextAgrees(c: bv8, p: bv8)
    ensures RegOf(CrcNext(c, p)) == EightShifts(Xor(RegOf(c), RegOf(p)))
  {
    hide RegOf, EightShiftsByte, EightShifts, Xor;
    EightShiftsAgree(c ^ p);
    XorAgrees(c, p);
  }

  function BitList(s: Reg): seq<bool> {
    [s.b7, s.b6, s.b5, s.b4, s.b3, s.b2, s.b1, s.b0]
  }

  lemma ByteBitsStep(d: seq<bv8>, n: nat)
    requires 1 <= n <= |d|
    ensures ByteBits(d, 8 * n) == ByteBits(d, 8 * (n - 1)) + BitList(RegOf(d[n - 1]))
  {
    hide Bit, ByteStream;
    var p := d[n - 1];
    forall k | 0 <= k < 8 ensures ByteStream(d, 8 * (n - 1) + k) == Bit(p, k) {
      ByteStreamAt(d, n - 1, k);
    }
    assert ByteStream(d, 8 * (n - 1) + 0) == Bit(p, 0);
  }

  lemma {:induction false} CrcIsStream(d: seq<bv8>, n: nat)
    requires n <= |d|
    ensures RegOf(Crc(d[..n])) == FeedAll(ZERO, ByteBits(d, 8 * n))
    decreases n
  {
    hide Feed, RegOf, CrcNext, EightShifts, Xor, FeedByte;
    if n == 0 {
      CrcEmpty();
    } else {
      var p := d[n - 1];
      var c := Crc(d[..n - 1]);
      var front := ByteBits(d, 8 * (n - 1));
      CrcIsStream(d, n - 1);
      assert d[..n][..n - 1] == d[..n - 1];
      CrcNextAgrees(c, p);
      ByteIsEightBits(RegOf(c), RegOf(p));
      ByteBitsStep(d, n);
      FeedAllAppend(ZERO, front, BitList(RegOf(p)));
      FeedEight(RegOf(c), RegOf(p));
    }
  }

  lemma CrcEmpty()
    ensures RegOf(0) == ZERO
  {
  }

  lemma ShiftZero(r: Reg)
    ensures Shift(r) == ZERO <==> r == ZERO
  {
  }

  lemma EightShiftsZero(r: Reg)
    ensures EightShifts(r) == ZERO <==> r == ZERO
  {
    hide Shift;
    ShiftZero(r);
    ShiftZero(Shift(r));
    ShiftZero(Shift(Shift(r)));
    ShiftZero(Shift(Shift(Shift(r))));
    ShiftZero(Shift(Shift(Shift(Shift(r)))));
    ShiftZero(Shift(Shift(Shift(Shift(Shift(r))))));
    ShiftZero(Shift(Shift(Shift(Shift(Shift(Shift(r)))))));
    ShiftZero(Shift(Shift(Shift(Shift(Shift(Shift(Shift(r))))))));
  }

  lemma XorIsZero(r: Reg, s: Reg)
    ensures Xor(r, s) == ZERO <==> r == s
  {
  }

  /** The checksum byte is right exactly when all nine bytes leave the register zero. */
  lemma ChecksumIsSyndrome(d: seq<bv8>)
    requires |d| == 9
    ensures Crc(d[..8]) == d[8] <==> RegOf(Crc(d)) == ZERO
  {
    hide RegOf, CrcNext, EightShifts, Xor;
    var c := Crc(d[..8]);
    assert d[..9] == d && d[..9 - 1] == d[..8];
    CrcNextAgrees(c, d[8]);
    EightShiftsZero(Xor(RegOf(c), RegOf(d[8])));
    XorIsZero(RegOf(c), RegOf(d[8]));
    if RegOf(c) == RegOf(d[8]) {
      RegOfInjective(c, d[8]);
    }
  }

  lemma FeedFalseZero(r: Reg)
    ensures Feed(r, false) == ZERO <==> r == ZERO
  {
  }

  /** Fifteen symbols decode exactly when their padding is zero and they leave the register zero. */
  lemma ValidIffSyndromeZero(syms: seq<Symbol>)
    requires |syms| == 15
    ensures DecodeSymbols(syms).Some? <==> PadZero(syms) && AbsorbAll(syms) == ZERO
  {
    hide SymStream, ByteStream, Crc, Feed, RegOf, Absorb, ByteAt, Unpack;
    if PadZero(syms) {
      var d := Bytes(syms);
      ChecksumIsSyndrome(d);
      CrcIsStream(d, 9);
      assert d[..9] == d;
      AbsorbAllIsStream(syms, 15);
      assert syms[..15] == syms;
      forall i | 0 <= i < 72 ensures ByteStream(d, i) == SymStream(syms, i) {
        StreamsAgree(syms, i);
      }
      assert SymBits(syms, 75) == ByteBits(d, 72) + [false, false, false];
      FeedAllAppend(ZERO, ByteBits(d, 72), [false, false, false]);
      var r := FeedAll(ZERO, ByteBits(d, 72));
      FeedThreeFalse(r);
    }
  }

  lemma FeedThreeFalse(r: Reg)
    ensures FeedAll(r, [false, false, false]) == ZERO <==> r == ZERO
  {
    hide Feed;
    FeedThree(r, false, false, false);
    FeedFalseZero(r);
    FeedFalseZero(Feed(r, false));
    FeedFalseZero(Feed(Feed(r, false), false));
  }

  // -------------------------------------------------------- error detection

  function Five(r: Reg, a: bool, b: bool, c: bool, d: bool, e: bool): Reg {
    Feed(Feed(Feed(Feed(Feed(r, a), b), c), d), e)
  }

  lemma FeedLinear(r: Reg, s: Reg, a: bool, b: bool)
    ensures Feed(Xor(r, s), a != b) == Xor(Feed(r, a), Feed(s, b))
  {
  }

  /** The registers of two symbols differ by what their difference alone would leave. */
  lemma AbsorbDifference(r: Reg, s: Reg, v: Symbol, w: Symbol)
    ensures Xor(Absorb(r, v), Absorb(s, w))
         == Five(Xor(r, s), SymBit(v, 0) != SymBit(w, 0), SymBit(v, 1) != SymBit(w, 1),
                 SymBit(v, 2) != SymBit(w, 2), SymBit(v, 3) != SymBit(w, 3), SymBit(v, 4) != SymBit(w, 4))
  {
    hide Feed, SymBit, Xor;
    var r1, s1 := Feed(r, SymBit(v, 0)), Feed(s, SymBit(w, 0));
    var r2, s2 := Feed(r1, SymBit(v, 1)), Feed(s1, SymBit(w, 1));
    var r3, s3 := Feed(r2, SymBit(v, 2)), Feed(s2, SymBit(w, 2));
    var r4, s4 := Feed(r3, SymBit(v, 3)), Feed(s3, SymBit(w, 3));
    FeedLinear(r, s, SymBit(v, 0), SymBit(w, 0));
    FeedLinear(r1, s1, SymBit(v, 1), SymBit(w, 1));
    FeedLinear(r2, s2, SymBit(v, 2), SymBit(w, 2));
    FeedLinear(r3, s3, SymBit(v, 3), SymBit(w, 3));
    FeedLinear(r4, s4, SymBit(v, 4), SymBit(w, 4));
  }

  lemma FiveDetect(a: bool, b: bool, c: bool, d: bool, e: bool)
    requires Five(ZERO, a, b, c, d, e) == ZERO
    ensures !a && !b && !c && !d && !e
  {
  }

  /** No nonzero multiple of x^5 + 1 of this size is a multiple of the CRC polynomial. */
  lemma TenDetect(a: bool, b: bool, c: bool, d: bool, e: bool)
    requires Five(Five(ZERO, a, b, c, d, e), a, b, c, d, e) == ZERO
    ensures !a && !b && !c && !d && !e
  {
  }

  lemma SameBits(v: Symbol, w: Symbol)
    requires SymBit(v, 0) == SymBit(w, 0) && SymBit(v, 1) == SymBit(w, 1) && SymBit(v, 2) == SymBit(w, 2)
    requires SymBit(v, 3) == SymBit(w, 3) && SymBit(v, 4) == SymBit(w, 4)
    ensures v == w
  {
    hide SymBit;
    SymbolOfBits(v);
    SymbolOfBits(w);
  }

  lemma AbsorbSymbolInjective(r: Reg, v: Symbol, w: Symbol)
    requires Absorb(r, v) == Absorb(r, w)
    ensures v == w
  {
    hide Absorb, Five, SymBit, Xor;
    AbsorbDifference(r, r, v, w);
    XorIsZero(r, r);
    XorIsZero(Absorb(r, v), Absorb(r, w));
    FiveDetect(SymBit(v, 0) != SymBit(w, 0), SymBit(v, 1) != SymBit(w, 1), SymBit(v, 2) != SymBit(w, 2),
               SymBit(v, 3) != SymBit(w, 3), SymBit(v, 4) != SymBit(w, 4));
    SameBits(v, w);
  }

  lemma AbsorbSwapInjective(r: Reg, v: Symbol, w: Symbol)
    requires Absorb(Absorb(r, v), w) == Absorb(Absorb(r, w), v)
    ensures v == w
  {
    hide Absorb, Five, SymBit, Xor;
    AbsorbDifference(r, r, v, w);
    XorIsZero(r, r);
    AbsorbDifference(Absorb(r, v), Absorb(r, w), w, v);
    XorIsZero(Absorb(Absorb(r, v), w), Absorb(Absorb(r, w), v));
    TenDetect(SymBit(v, 0) != SymBit(w, 0), SymBit(v, 1) != SymBit(w, 1), SymBit(v, 2) != SymBit(w, 2),
              SymBit(v, 3) != SymBit(w, 3), SymBit(v, 4) != SymBit(w, 4));
    SameBits(v, w);
  }

  lemma AbsorbRegisterInjective(r: Reg, s: Reg, v: Symbol)
    requires Absorb(r, v) == Absorb(s, v)
    ensures r == s
  {
    hide Feed, SymBit;
    var a, b, c, d, e := SymBit(v, 0), SymBit(v, 1), SymBit(v, 2), SymBit(v, 3), SymBit(v, 4);
    FeedInjective(Feed(Feed(Feed(Feed(r, a), b), c), d), Feed(Feed(Feed(Feed(s, a), b), c), d), e);
    FeedInjective(Feed(Feed(Feed(r, a), b), c), Feed(Feed(Feed(s, a), b), c), d);
    FeedInjective(Feed(Feed(r, a), b), Feed(Feed(s, a), b), c);
    FeedInjective(Feed(r, a), Feed(s, a), b);
    FeedInjective(r, s, a);
  }

  /** One replaced symbol always leaves a different register. */
  lemma {:induction false} SubstitutionSeparates(x: seq<Symbol>, k: nat, v: Symbol)
    requires k < |x| && x[k] != v
    ensures AbsorbAll(x) != AbsorbAll(x[k := v])
    decreases |x|
  {
    hide Absorb;
    var y := x[k := v];
    var n := |x| - 1;
    if k == n {
      assert x[..n] == y[..n];
      if AbsorbAll(x) == AbsorbAll(y) {
        AbsorbSymbolInjective(AbsorbAll(x[..n]), x[n], v);
      }
    } else {
      assert y[..n] == x[..n][k := v];
      SubstitutionSeparates(x[..n], k, v);
      if AbsorbAll(x) == AbsorbAll(y) {
        AbsorbRegisterInjective(AbsorbAll(x[..n]), AbsorbAll(y[..n]), x[n]);
      }
    }
  }

  /** So does exchanging two different neighbours. */
  lemma {:induction false} SwapSeparates(x: seq<Symbol>, k: nat)
    requires k + 1 < |x| && x[k] != x[k + 1]
    ensures AbsorbAll(x) != AbsorbAll(x[k := x[k + 1]][k + 1 := x[k]])
    decreases |x|
  {
    hide Absorb;
    var y := x[k := x[k + 1]][k + 1 := x[k]];
    var n := |x| - 1;
    if k + 1 == n {
      var r := AbsorbAll(x[..k]);
      assert x[..n][..k] == x[..k] == y[..n][..k];
      assert AbsorbAll(x[..n]) == Absorb(r, x[k]) && AbsorbAll(y[..n]) == Absorb(r, x[n]);
      if AbsorbAll(x) == AbsorbAll(y) {
        AbsorbSwapInjective(r, x[k], x[n]);
      }
    } else {
      assert y[..n] == x[..n][k := x[..n][k + 1]][k + 1 := x[..n][k]];
      SwapSeparates(x[..n], k);
      if AbsorbAll(x) == AbsorbAll(y) {
        AbsorbRegisterInjective(AbsorbAll(x[..n]), AbsorbAll(y[..n]), x[n]);
      }
    }
  }

  // ------------------------------------------------------------ main results

  lemma ByteRoundTrips(x: int)
    ensures Byte(x) as int == x % 256
  {
    ByteRoundTrip(x % 256);
  }

  lemma ByteOfInt(b: bv8, x: int)
    requires b as int == x % 256
    ensures Byte(x) == b
  {
  }

  lemma FourDigits(x: u32)
    ensures Four(x / 0x100_0000 % 256, x / 0x1_0000 % 256, x / 0x100 % 256, x % 256) == x
  {
    var y := x / 256;
    var z := y / 256;
    var w := z / 256;
    assert x / 0x1_0000 == z;
    assert x / 0x100_0000 == w < 256;
  }

  lemma TwoDigits(x: u16)
    ensures Two(x / 0x100 % 256, x % 256) == x
  {
    var y := x / 256;
    var z := y / 256;
    var w := z / 256;
    assert x / 0x1_0000 == z;
    assert x / 0x100_0000 == w < 256;
  }

  lemma DigitsOfFour(a: u8, b: u8, c: u8, d: u8)
    ensures var x := Four(a, b, c, d);
      x / 0x100_0000 % 256 == a && x / 0x1_0000 % 256 == b && x / 0x100 % 256 == c && x % 256 == d
  {
    var x := Four(a, b, c, d);
    assert x / 0x100 == a * 0x1_0000 + b * 0x100 + c;
    assert x / 0x1_0000 == a * 0x100 + b;
    assert x / 0x100_0000 == a;
  }

  lemma DigitsOfTwo(a: u8, b: u8)
    ensures var x := Two(a, b); x / 0x100 % 256 == a && x % 256 == b
  {
  }

  lemma UnpackPack(server: Endpoint, id: u16)
    ensures Unpack(Payload(server, id)) == (server, id)
  {
    hide Byte, Crc, Four, Two;
    ByteRoundTrips(server.ip / 0x100_0000);
    ByteRoundTrips(server.ip / 0x1_0000);
    ByteRoundTrips(server.ip / 0x100);
    ByteRoundTrips(server.ip);
    ByteRoundTrips(server.port / 0x100);
    ByteRoundTrips(server.port);
    ByteRoundTrips(id / 0x100);
    ByteRoundTrips(id);
    FourDigits(server.ip);
    TwoDigits(server.port);
    TwoDigits(id);
  }

  lemma PackOf(server: Endpoint, id: u16, d: seq<bv8>)
    requires |d| == 8
    requires d[0] as int == server.ip / 0x100_0000 % 256 && d[1] as int == server.ip / 0x1_0000 % 256
    requires d[2] as int == server.ip / 0x100 % 256 && d[3] as int == server.ip % 256
    requires d[4] as int == server.port / 0x100 % 256 && d[5] as int == server.port % 256
    requires d[6] as int == id / 0x100 % 256 && d[7] as int == id % 256
    ensures Pack(server, id) == d
  {
    hide Byte;
    ByteOfInt(d[0], server.ip / 0x100_0000);
    ByteOfInt(d[1], server.ip / 0x1_0000);
    ByteOfInt(d[2], server.ip / 0x100);
    ByteOfInt(d[3], server.ip);
    ByteOfInt(d[4], server.port / 0x100);
    ByteOfInt(d[5], server.port);
    ByteOfInt(d[6], id / 0x100);
    ByteOfInt(d[7], id);
  }

  lemma PackUnpack(d: seq<bv8>)
    requires |d| >= 8
    ensures Pack(Unpack(d).0, Unpack(d).1) == d[..8]
  {
    hide Pack, Four, Two;
    DigitsOfFour(d[0] as u8, d[1] as u8, d[2] as u8, d[3] as u8);
    DigitsOfTwo(d[4] as u8, d[5] as u8);
    DigitsOfTwo(d[6] as u8, d[7] as u8);
    PackOf(Unpack(d).0, Unpack(d).1, d[..8]);
  }

  /** The symbols of a code decode to what was encoded. */
  lemma SymbolsRoundTrip(server: Endpoint, id: u16)
    ensures DecodeSymbols(Symbols(Payload(server, id))) == Some((server, id))
  {
    hide Crc, Symbols, Bytes, Unpack, Pack, PadZero;
    var d := Payload(server, id);
    PackLength(server, id);
    BytesOfSymbols(d);
    assert d[..8] == Pack(server, id);
    UnpackPack(server, id);
    SymbolsLength(d);
  }

  lemma PackLength(server: Endpoint, id: u16)
    ensures |Pack(server, id)| == 8
  {
  }

  lemma SymbolsLength(d: seq<bv8>)
    ensures |Symbols(d)| == 15
  {
  }

  /** Decoding accepts exactly the encodings: fifteen symbols decode to a pair if
      and only if they are the symbols that pair encodes to. */
  lemma DecodesIffEncoded(syms: seq<Symbol>, server: Endpoint, id: u16)
    ensures DecodeSymbols(syms) == Some((server, id)) <==> syms == Symbols(Payload(server, id))
  {
    hide Crc, Symbols, Bytes, Unpack, Pack, PadZero;
    SymbolsRoundTrip(server, id);
    if DecodeSymbols(syms) == Some((server, id)) {
      var d := Bytes(syms);
      BytesLength(syms);
      PackUnpack(d);
      assert Payload(server, id) == d[..8] + [d[8]] == d;
      SymbolsOfBytes(syms);
    }
  }

  lemma BytesLength(syms: seq<Symbol>)
    ensures |Bytes(syms)| == 9
  {
  }

  /** Any single wrong symbol in a code is rejected. */
  lemma SubstitutionRejected(server: Endpoint, id: u16, k: nat, v: Symbol)
    requires k < 15 && Symbols(Payload(server, id))[k] != v
    ensures DecodeSymbols(Symbols(Payload(server, id))[k := v]).None?
  {
    hide Symbols, Payload, DecodeSymbols, AbsorbAll, PadZero;
    var x := Symbols(Payload(server, id));
    SymbolsLength(Payload(server, id));
    SymbolsRoundTrip(server, id);
    ValidIffSyndromeZero(x);
    ValidIffSyndromeZero(x[k := v]);
    SubstitutionSeparates(x, k, v);
  }

  /** Any exchange of two different neighbouring symbols is rejected. */
  lemma SwapRejected(server: Endpoint, id: u16, k: nat)
    requires k + 1 < 15 && Symbols(Payload(server, id))[k] != Symbols(Payload(server, id))[k + 1]
    ensures var x := Symbols(Payload(server, id)); DecodeSymbols(x[k := x[k + 1]][k + 1 := x[k]]).None?
  {
    hide Symbols, Payload, DecodeSymbols, AbsorbAll, PadZero;
    var x := Symbols(Payload(server, id));
    SymbolsLength(Payload(server, id));
    SymbolsRoundTrip(server, id);
    ValidIffSyndromeZero(x);
    ValidIffSyndromeZero(x[k := x[k + 1]][k + 1 := x[k]]);
    SwapSeparates(x, k);
  }

  // ------------------------------------------------------------------ text

  lemma {:induction false} SpellAppend(a: string, b: string)
    requires Spell(a).Some? && Spell(b).Some?
    ensures Spell(a + b) == Some(Spell(a).value + Spell(b).value)
    decreases |b|
  {
    hide B32Val;
    if b == [] {
      assert a + b == a;
      assert Spell(a).value + [] == Spell(a).value;
    } else {
      var n := |b| - 1;
      SpellAppend(a, b[..n]);
      assert (a + b)[..|a + b| - 1] == a + b[..n];
      assert (a + b)[|a + b| - 1] == b[n];
      var x, y := Spell(a).value, Spell(b[..n]).value;
      if b[n] != '-' {
        assert x + (y + [B32Val(b[n])]) == (x + y) + [B32Val(b[n])];
      }
    }
  }

  lemma {:induction false} SearchFinds(v: Symbol, i: nat)
    requires 10 <= i <= v
    ensures Search(ALPHABET[v], i) == v
    decreases v - i
  {
    if i < v {
      LettersAscend(i, v);
      SearchFinds(v, i + 1);
    }
  }

  /** The alphabet is strictly increasing, so its letters are all different. */
  lemma {:induction false} LettersAscend(i: Symbol, j: Symbol)
    requires i < j
    ensures ALPHABET[i] < ALPHABET[j]
    decreases j - i
  {
    LetterStep(i);
    if i + 1 < j {
      LettersAscend(i + 1, j);
    }
  }

  lemma LetterStep(i: Symbol)
    requires i < 31
    ensures ALPHABET[i] < ALPHABET[i + 1]
  {
  }

  lemma LetterValue(v: Symbol)
    ensures B32Val(ALPHABET[v]) == v && ALPHABET[v] != '-'
  {
    if v < 10 {
      DigitLetter(v);
    } else {
      LetterRange(v);
      SearchFinds(v, 10);
    }
  }

  lemma DigitLetter(v: Symbol)
    requires v < 10
    ensures ALPHABET[v] as int == '0' as int + v
  {
  }

  lemma LetterRange(v: Symbol)
    requires 10 <= v
    ensures 'A' <= ALPHABET[v] <= 'Z' && ALPHABET[v] != 'O' && ALPHABET[v] != 'I' && ALPHABET[v] != 'L'
  {
  }

  lemma {:induction false} SpellLetters(syms: seq<Symbol>)
    ensures Spell(Letters(syms)) == Some(syms)
    decreases |syms|
  {
    hide B32Val;
    if syms != [] {
      var n := |syms| - 1;
      SpellLetters(syms[..n]);
      assert Letters(syms)[..n] == Letters(syms[..n]);
      LetterValue(syms[n]);
      assert Letters(syms)[n] == ALPHABET[syms[n]];
      assert syms == syms[..n] + [syms[n]];
    }
  }

  /** A code spells its own symbols, whatever its grouping dashes. */
  lemma SpellEncode(server: Endpoint, id: u16)
    ensures Spell(Encode(server, id)) == Some(Symbols(Payload(server, id)))
  {
    hide Symbols, Payload, B32Val;
    var x := Symbols(Payload(server, id));
    SymbolsLength(Payload(server, id));
    var t := Letters(x);
    assert t[..5] == Letters(x[..5]) && t[5..10] == Letters(x[5..10]) && t[10..] == Letters(x[10..]);
    SpellLetters(x[..5]);
    SpellLetters(x[5..10]);
    SpellLetters(x[10..]);
    SpellDash();
    SpellAppend(t[..5], "-");
    SpellAppend(t[..5] + "-", t[5..10]);
    SpellAppend(t[..5] + "-" + t[5..10], "-");
    SpellAppend(t[..5] + "-" + t[5..10] + "-", t[10..]);
    assert x[..5] + [] + x[5..10] + [] + x[10..] == x;
  }

  lemma SpellDash()
    ensures Spell("-") == Some([])
  {
    assert "-"[..0] == [];
  }

  /** Encoding then decoding gives the endpoint and the session id back. */
  lemma CodeRoundTrip(server: Endpoint, id: u16)
    ensures Decode(Encode(server, id)) == Some((server, id))
  {
    hide Encode, DecodeSymbols;
    SpellEncode(server, id);
    SymbolsRoundTrip(server, id);
  }

  /** Text decodes to a pair exactly when it spells that pair's own symbols, so
      every accepted text is the pair's code up to dashes, case and aliases. */
  lemma DecodesIffSpellsCode(text: string, server: Endpoint, id: u16)
    ensures Decode(text) == Some((server, id)) <==> Spell(text) == Spell(Encode(server, id))
  {
    hide Encode, DecodeSymbols, Symbols;
    SpellEncode(server, id);
    if Spell(text).Some? {
      DecodesIffEncoded(Spell(text).value, server, id);
    }
  }

  // -------------------------------------------------- the loops of the source

  function BitAt(b: bv8, k: nat): (v: int)
    requires k < 8
    ensures v == Digit(Bit(b, k))
  {
    if (b >> (7 - k)) & 1 == 1 then 1 else 0
  }

  function WithBit(b: bv8, k: nat): (c: bv8)
    requires k < 8
    ensures forall l :: 0 <= l < 8 ==> Bit(c, l) == (k == l || Bit(b, l))
  {
    forall l | 0 <= l < 8 ensures Bit(b | (1 << (7 - k)), l) == (k == l || Bit(b, l)) {
      SetBit(b, k, l);
    }
    b | (1 << (7 - k))
  }

  lemma SetBit(b: bv8, k: nat, l: nat)
    requires k < 8 && l < 8
    ensures Bit(b | (1 << (7 - k)), l) == (k == l || Bit(b, l))
  {
  }

  /** crc8: xor a byte in, then eight conditional shifts. */
  method CrcLoop(p: array<bv8>, n: nat) returns (c: bv8)
    requires n <= p.Length
    ensures c == Crc(p[..n])
  {
    c := 0;
    for i := 0 to n
      invariant c == Crc(p[..i])
    {
      assert p[..i + 1][..i] == p[..i];
      ghost var start := c ^ p[i];
      c := c ^ p[i];
      for b := 0 to 8
        invariant ShiftMany(c, 8 - b) == ShiftMany(start, 8)
      {
        c := if c & 0x80 != 0 then (c << 1) ^ 0x07 else c << 1;
      }
      EightIsShiftMany(start);
    }
  }

  ghost function ShiftMany(c: bv8, n: nat): bv8
    decreases n
  {
    if n == 0 then c else ShiftMany(ShiftByte(c), n - 1)
  }

  lemma EightIsShiftMany(c: bv8)
    ensures ShiftMany(c, 8) == EightShiftsByte(c)
  {
    hide ShiftByte;
    var c4 := ShiftByte(ShiftByte(ShiftByte(ShiftByte(c))));
    assert ShiftMany(c, 8) == ShiftMany(ShiftByte(c), 7) == ShiftMany(ShiftByte(ShiftByte(c)), 6);
    assert ShiftMany(ShiftByte(ShiftByte(c)), 6) == ShiftMany(ShiftByte(ShiftByte(ShiftByte(c))), 5) ==
      ShiftMany(c4, 4);
    assert ShiftMany(c4, 4) == ShiftMany(ShiftByte(c4), 3) == ShiftMany(ShiftByte(ShiftByte(c4)), 2);
  }

  /** The symbol after its first k bits. */
  ghost function Partial(d: seq<bv8>, s: nat, k: nat): int
    decreases k
  {
    if k == 0 then 0 else 2 * Partial(d, s, k - 1) + Digit(ByteStream(d, 5 * s + k - 1))
  }

  lemma PartialFive(d: seq<bv8>, s: nat)
    ensures Partial(d, s, 5) == SymbolAt(d, s)
  {
    hide ByteStream;
    assert Partial(d, s, 5) == 2 * Partial(d, s, 4) + Digit(ByteStream(d, 5 * s + 4));
    assert Partial(d, s, 4) == 2 * Partial(d, s, 3) + Digit(ByteStream(d, 5 * s + 3));
    assert Partial(d, s, 3) == 2 * Partial(d, s, 2) + Digit(ByteStream(d, 5 * s + 2));
    assert Partial(d, s, 2) == 2 * Partial(d, s, 1) + Digit(ByteStream(d, 5 * s + 1));
    assert Partial(d, s, 1) == 2 * Partial(d, s, 0) + Digit(ByteStream(d, 5 * s));
  }

  /** Character q of the text whose letters are t. */
  function CodeChar(t: string, q: int): char
    requires |t| == 15 && 0 <= q < 17
  {
    if q < 5 then t[q] else if q == 5 || q == 11 then '-' else if q < 11 then t[q - 1] else t[q - 2]
  }

  lemma CodeChars(server: Endpoint, id: u16)
    ensures var t := Letters(Symbols(Payload(server, id)));
      |Encode(server, id)| == 17 && forall q :: 0 <= q < 17 ==> Encode(server, id)[q] == CodeChar(t, q)
  {
    hide Symbols, Payload;
    SymbolsLength(Payload(server, id));
  }

  method PayloadBytes(server: Endpoint, id: u16) returns (d: array<bv8>)
    ensures fresh(d) && d.Length == 9 && d[..] == Payload(server, id)
  {
    hide Byte;
    d := new bv8[9];
    d[0], d[1] := Byte(server.ip / 0x100_0000), Byte(server.ip / 0x1_0000);
    d[2], d[3] := Byte(server.ip / 0x100), Byte(server.ip);
    d[4], d[5] := Byte(server.port / 0x100), Byte(server.port);
    d[6], d[7] := Byte(id / 0x100), Byte(id);
    assert d[..8] == Pack(server, id);
    d[8] := CrcLoop(d, 8);
    assert d[..8] == Pack(server, id);
    assert d[..] == d[..8] + [d[8]];
  }

  /** lobby_code_encode: fifteen symbols by bit extraction, dashes before the
      sixth and the eleventh, and the terminator. */
  method EncodeLoop(server: Endpoint, id: u16, out: array<char>)
    requires out.Length == CODE_LEN + 1
    modifies out
    ensures out[..CODE_LEN] == Encode(server, id) && out[CODE_LEN] == '\0'
  {
    hide Symbols, Payload, Encode, SymbolAt;
    var d := PayloadBytes(server, id);
    ghost var x := Symbols(Payload(server, id));
    ghost var t := Letters(x);
    SymbolsLength(Payload(server, id));
    var oi := 0;
    for s := 0 to 15
      invariant d[..] == Payload(server, id)
      invariant oi == s + (if s > 5 then 1 else 0) + (if s > 10 then 1 else 0)
      invariant forall q :: 0 <= q < oi ==> out[q] == CodeChar(t, q)
    {
      var sym := EncodeSymbol(d, s);
      SymbolsAt(d[..], s);
      if s == 5 || s == 10 {
        out[oi] := '-';
        oi := oi + 1;
      }
      out[oi] := ALPHABET[sym];
      oi := oi + 1;
    }
    out[oi] := '\0';
    CodeChars(server, id);
  }

  lemma SymbolsAt(d: seq<bv8>, s: nat)
    requires s < 15
    ensures |Symbols(d)| == 15 && Symbols(d)[s] == SymbolAt(d, s)
  {
  }

  /** The inner loop of the encoder: five bits, most significant first. */
  method EncodeSymbol(d: array<bv8>, s: nat) returns (sym: Symbol)
    requires d.Length == 9 && s < 15
    ensures sym == SymbolAt(d[..], s)
  {
    hide Bit, BitAt, SymbolAt;
    var acc := 0;
    for k := 0 to 5
      invariant acc == Partial(d[..], s, k)
    {
      var idx := 5 * s + k;
      var v := 0;
      if idx < 72 {
        v := BitAt(d[idx / 8], idx % 8);
      }
      acc := 2 * acc + v;
    }
    PartialFive(d[..], s);
    sym := acc;
  }

  /** The C string in a buffer: what comes before the first NUL. */
  function CText(buf: string): (text: string)
    ensures text <= buf && |text| <= |buf|
    ensures forall k :: 0 <= k < |text| ==> buf[k] != '\0'
    ensures '\0' in buf ==> |text| < |buf| && buf[|text|] == '\0'
  {
    if buf == [] || buf[0] == '\0' then [] else [buf[0]] + CText(buf[1..])
  }

  /** lobby_code_decode: collect symbols up to the NUL, rebuild the bytes bit by bit,
      refuse nonzero padding and a wrong checksum. */
  method DecodeLoop(buf: string) returns (r: Option<(Endpoint, u16)>)
    requires '\0' in buf
    ensures r == Decode(CText(buf))
  {
    var sym := new Symbol[15];
    var ns := 0;
    ghost var text := CText(buf);
    var p := 0;
    while buf[p] != '\0'
      invariant 0 <= ns <= 15 && 0 <= p <= |text|
      invariant Spell(text[..p]) == Some(sym[..ns])
      decreases |text| - p
    {
      assert text[p] == buf[p];
      assert text[..p + 1][..p] == text[..p];
      SpellTooLong(text, p + 1);
      if buf[p] != '-' {
        if ns >= 15 {
          return None;
        }
        var v := B32Val(buf[p]);
        if v < 0 {
          return None;
        }
        sym[ns] := v;
        ns := ns + 1;
        assert sym[..ns] == sym[..ns - 1] + [v];
      }
      p := p + 1;
    }
    assert text[..p] == text;
    if ns != 15 {
      return None;
    }
    r := DecodeBytes(sym);
    assert sym[..15] == sym[..];
  }

  /** Once a prefix spells nothing or too much, the whole text decodes to nothing. */
  lemma {:induction false} SpellTooLong(text: string, p: nat)
    requires p <= |text|
    ensures Spell(text[..p]).None? ==> Spell(text).None?
    ensures Spell(text[..p]).Some? && Spell(text).Some? ==> |Spell(text[..p]).value| <= |Spell(text).value|
    decreases |text|
  {
    hide B32Val;
    if p < |text| {
      var n := |text| - 1;
      assert text[..n][..p] == text[..p];
      SpellTooLong(text[..n], p);
    } else {
      assert text[..p] == text;
    }
  }

  /** Bits below position n have been copied, the rest are still zero. */
  ghost predicate Copied(d: seq<bv8>, x: seq<Symbol>, n: nat) {
    && |d| == 9
    && forall j, k :: 0 <= j < 9 && 0 <= k < 8 ==> Bit(d[j], k) == (8 * j + k < n && SymStream(x, 8 * j + k))
  }

  lemma CopiedBit(d: seq<bv8>, x: seq<Symbol>, n: nat)
    requires Copied(d, x, n)
    ensures n >= 72 || !SymStream(x, n) ==> Copied(d, x, n + 1)
    ensures n < 72 && SymStream(x, n) ==> Copied(d[n / 8 := WithBit(d[n / 8], n % 8)], x, n + 1)
  {
    hide Bit, WithBit, SymStream;
  }

  lemma CopiedAll(d: seq<bv8>, x: seq<Symbol>)
    requires Copied(d, x, 75) && |x| == 15
    ensures d == Bytes(x)
  {
    hide Bit, ByteAt, SymStream;
    forall j | 0 <= j < 9 ensures d[j] == Bytes(x)[j] {
      ByteAtBits(x, j);
      assert Bytes(x)[j] == ByteAt(x, j);
      assert Bit(d[j], 0) == SymStream(x, 8 * j + 0);
      RegOfInjective(d[j], ByteAt(x, j));
    }
  }

  method DecodeBytes(sym: array<Symbol>) returns (r: Option<(Endpoint, u16)>)
    requires sym.Length == 15
    ensures r == DecodeSymbols(sym[..])
  {
    hide Bit, WithBit, SymStream, SymBit, Copied, Unpack, Bytes;
    var d := new bv8[9](_ => 0);
    ghost var x := sym[..];
    CopiedNone(d[..], x);
    for s := 0 to 15
      invariant sym[..] == x && Copied(d[..], x, 5 * s)
      invariant forall i :: 72 <= i < 5 * s ==> !SymStream(x, i)
    {
      for k := 0 to 5
        invariant sym[..] == x && Copied(d[..], x, 5 * s + k)
        invariant forall i :: 72 <= i < 5 * s + k ==> !SymStream(x, i)
      {
        var idx := 5 * s + k;
        var bit := SymBit(sym[s], k);
        SymStreamAt(x, s, k);
        CopiedBit(d[..], x, idx);
        if idx < 72 {
          if bit {
            d[idx / 8] := WithBit(d[idx / 8], idx % 8);
          }
        } else if bit {
          return None;
        }
      }
    }
    CopiedAll(d[..], x);
    var c := CrcLoop(d, 8);
    assert d[..][..8] == d[..8];
    if c != d[8] {
      return None;
    }
    return Some(Unpack(d[..]));
  }

  lemma CopiedNone(d: seq<bv8>, x: seq<Symbol>)
    requires |d| == 9 && forall j :: 0 <= j < 9 ==> d[j] == 0
    ensures Copied(d, x, 0)
  {
  }
}
