// The simulation state as the 944 bytes that are hashed, saved and sent, in the
// struct's little-endian layout with its padding.

module ArenaBytes {
  import opened Basics
  import opened ArenaMath
  import opened ArenaTypes
  import Fnv

  function Low(x: int): u8 {
    x % 256
  }

  function Two(x: int): (b: seq<u8>)
    ensures |b| == 2
  {
    [Low(x), Low(x / 256)]
  }

  /** Two's complement, least significant byte first. */
  function Four(x: int): (b: seq<u8>)
    ensures |b| == 4
  {
    [Low(x), Low(x / 0x100), Low(x / 0x1_0000), Low(x / 0x100_0000)]
  }

  function ByteOf(r: bv32): u8 {
    ((r & 0xFF) as bv8) as int
  }

  function SecondByte(r: bv32): u8 {
    ByteOf(r >> 8)
  }

  function ThirdByte(r: bv32): u8 {
    ByteOf(r >> 16)
  }

  function FourthByte(r: bv32): u8 {
    ByteOf(r >> 24)
  }

  function RngBytes(r: bv32): (b: seq<u8>)
    ensures |b| == 4
  {
    [ByteOf(r), SecondByte(r), ThirdByte(r), FourthByte(r)]
  }

  function VecBytes(v: Vec): (b: seq<u8>)
    ensures |b| == 12
  {
    Four(v.x) + Four(v.y) + Four(v.z)
  }

  function PStateCode(s: PState): u8 {
    match s case Idle => 0 case Run => 1 case Jump => 2 case Tumble => 3 case Dead => 4
  }

  function BStateCode(s: BState): u8 {
    match s
    case Free => 0 case Held => 1 case Airborne => 2 case Settled => 3 case Exploding => 4 case Sliding => 5
    case Falling => 6
  }

  function PhaseCode(p: Phase): u8 {
    match p case Countdown => 0 case Play => 1 case SuddenDeath => 2 case RoundEnd => 3
  }

  function PlayerBytes(p: Player): (b: seq<u8>)
    ensures |b| == 40
  {
    VecBytes(p.pos) + VecBytes(p.vel) + Two(p.yaw) + [Low(PStateCode(p.state)), Low(p.hp)] + Two(p.timer)
    + [Low(p.stocks), Low(p.held), Low(p.live), 0] + Two(p.lastInput) + Four(p.animHint)
  }

  function BombBytes(b: Bomb): (r: seq<u8>)
    ensures |r| == 32
  {
    VecBytes(b.pos) + VecBytes(b.vel) + [Low(b.owner), Low(BStateCode(b.state))] + Two(b.fuse)
    + [Low(b.bounced), Low(b.attach), 0, 0]
  }

  function BlastBytes(l: Blast): (r: seq<u8>)
    ensures |r| == 16
  {
    VecBytes(l.center) + Two(l.radiusT) + [Low(l.owner), Low(l.ttl)]
  }

  function BombsBytes(bs: seq<Bomb>): (r: seq<u8>)
    ensures |r| == 32 * |bs|
  {
    if bs == [] then [] else BombBytes(bs[0]) + BombsBytes(bs[1..])
  }

  function BlastsBytes(ls: seq<Blast>): (r: seq<u8>)
    ensures |r| == 16 * |ls|
  {
    if ls == [] then [] else BlastBytes(ls[0]) + BlastsBytes(ls[1..])
  }

  /** Everything after the generator. */
  function TailBytes(s: State): (r: seq<u8>)
    ensures Sized(s.world) ==> |r| == 936
  {
    [Low(s.round), Low(PhaseCode(s.phase))] + Two(s.phaseTimer) + [Low(s.arena), Low(s.numPlayers)] + Two(s.shrink)
    + PlayerBytes(s.world.players.x0) + PlayerBytes(s.world.players.x1)
    + PlayerBytes(s.world.players.x2) + PlayerBytes(s.world.players.x3)
    + BombsBytes(s.world.bombs) + BlastsBytes(s.world.blasts)
  }

  function StateBytes(s: State): (r: seq<u8>)
    ensures Sized(s.world) ==> |r| == 944
  {
    Four(s.tick) + RngBytes(s.rng) + TailBytes(s)
  }

  /** arena_hash. */
  function StateHash(s: State): u32 {
    Fnv.Hash(StateBytes(s))
  }

  function FlipBit(r: bv32): bv32 {
    r ^ 1
  }

  lemma FlipIsLowByte(r: bv32)
    ensures ByteOf(FlipBit(r)) != ByteOf(r)
  {
    LowBitDiffers(r);
    BitsBack((FlipBit(r) & 0xFF) as bv8);
    BitsBack((r & 0xFF) as bv8);
    hide FlipBit;
  }

  lemma LowBitDiffers(r: bv32)
    ensures (FlipBit(r) & 0xFF) as bv8 != (r & 0xFF) as bv8
  {
  }

  lemma BitsBack(b: bv8)
    ensures (b as int) as bv8 == b
  {
  }

  lemma FlipKeepsSecond(r: bv32)
    ensures SecondByte(FlipBit(r)) == SecondByte(r)
  {
    hide ByteOf;
  }

  lemma FlipKeepsThird(r: bv32)
    ensures ThirdByte(FlipBit(r)) == ThirdByte(r)
  {
    hide ByteOf;
  }

  lemma FlipKeepsFourth(r: bv32)
    ensures FourthByte(FlipBit(r)) == FourthByte(r)
  {
    hide ByteOf;
  }

  lemma FlipTwice(r: bv32)
    ensures FlipBit(FlipBit(r)) == r
  {
  }

  /** Flipping the generator's lowest bit changes exactly one byte, hence the hash. */
  lemma FlipChangesHash(s: State)
    ensures StateHash(s.(rng := FlipBit(s.rng))) != StateHash(s)
  {
    var t := s.(rng := FlipBit(s.rng));
    var x, y := RngBytes(s.rng), RngBytes(t.rng);
    FlipIsLowByte(s.rng);
    RngTail(s.rng);
    hide TailBytes, Fnv.Hash, RngBytes, FlipBit;
    var rest := x[1..] + TailBytes(s);
    assert TailBytes(t) == TailBytes(s) by { SameTail(s, t.rng); }
    assert StateBytes(s) == Four(s.tick) + [x[0]] + rest;
    assert StateBytes(t) == Four(s.tick) + [y[0]] + rest;
    Fnv.OneByteMatters(Four(s.tick), x[0], y[0], rest);
  }

  lemma SameTail(s: State, r: bv32)
    ensures TailBytes(s.(rng := r)) == TailBytes(s)
  {
  }

  lemma RngTail(r: bv32)
    ensures RngBytes(FlipBit(r))[1..] == RngBytes(r)[1..] && RngBytes(FlipBit(r))[0] != RngBytes(r)[0]
  {
    hide FlipBit, ByteOf, SecondByte, ThirdByte, FourthByte;
    FlipIsLowByte(r);
    FlipKeepsSecond(r);
    FlipKeepsThird(r);
    FlipKeepsFourth(r);
  }
}
