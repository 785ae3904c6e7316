// The simulation's state, tuning constants and geometry.

module ArenaTypes {
  import opened Basics
  import opened ArenaMath

  // ------------------------------------------------------------------ tuning

  const RUN_SPEED := 618
  const RUN_ACCEL := 51
  const RUN_FRICTION := 122
  const JUMP_IMPULSE := 1146
  const GRAVITY := 71
  const TERMINAL_VY := -1650
  const AIR_CONTROL := 34
  const PLAYER_RADIUS := 1433
  const PLAYER_HEIGHT := 4096
  const TURN_RATE := 1092
  const TURN_SNAP_SPEED := 405504
  const THROW_SPEED := 737
  const THROW_UP := 491
  const SPREAD_TICKS := 120
  const SPREAD_SPEED := 389
  const SPREAD_UP := 225
  const KICK_SPEED := 675
  const KICK_MIN_VEL := 81
  const BOMB_RADIUS := 1228
  const BOMB_STAND_GAP := 1024
  const BOMB_GRAVITY := 68
  const HAND_Y := 1706
  const HAND_FWD := 1092
  const SET_OFFSET := 1024
  const ATTACH_TICKS := 8
  const FUSE_TICKS := 150
  const MAX_LIVE := 6
  const BLAST_RADIUS := 6553
  const BLAST_TTL := 20
  const BLAST_GROW := 12
  const KNOCKBACK := 655
  const KNOCKBACK_UP := 409
  const INVULN_TICKS := 60
  const TUMBLE_TICKS := 30
  const START_HP := 4
  const ROUND_TICKS := 7200
  const COUNTDOWN_TICKS := 180
  const ROUND_END_TICKS := 180
  const ROUNDS_TO_WIN := 3
  const RESPAWN_TICKS := 120
  const DEADZONE := 409
  const GRACE_GAP := 409
  const RUN_THRESHOLD := 40
  const SHRINK_STEP := 122
  const SHRINK_MAX := 96
  const STICK_MAX := 31

  const MAX_BOMBS: nat := 16
  const MAX_BLASTS: nat := 16

  // ------------------------------------------------------------------- state

  datatype PState = Idle | Run | Jump | Tumble | Dead

  datatype BState = Free | Held | Airborne | Settled | Exploding | Sliding | Falling

  datatype Phase = Countdown | Play | SuddenDeath | RoundEnd

  datatype Player = Player(
    pos: Vec, vel: Vec, yaw: u16, state: PState, hp: u8, timer: u16, stocks: u8,
    held: u8, live: u8, lastInput: u16, animHint: u32)

  datatype Bomb = Bomb(
    pos: Vec, vel: Vec, owner: Slot, state: BState, fuse: u16, bounced: u8, attach: u8)

  datatype Blast = Blast(center: Vec, radiusT: u16, owner: Slot, ttl: u8)

  const NO_PLAYER := Player(ORIGIN, ORIGIN, 0, Idle, 0, 0, 0, 0, 0, 0, 0)
  const NO_BOMB := Bomb(ORIGIN, ORIGIN, 0, Free, 0, 0, 0)
  const NO_BLAST := Blast(ORIGIN, 0, 0, 0)

  /** The three tables a tick works on. */
  datatype World = World(players: Quad<Player>, bombs: seq<Bomb>, blasts: seq<Blast>)

  type ArenaId = x: int | 0 <= x < 2

  datatype State = State(
    tick: u32, rng: bv32, round: u8, phase: Phase, phaseTimer: u16,
    arena: ArenaId, numPlayers: u8, shrink: u16, world: World)

  /** The tables have their fixed sizes. */
  predicate Sized(w: World) {
    |w.bombs| == MAX_BOMBS && |w.blasts| == MAX_BLASTS
  }

  // ---------------------------------------------------------------- geometry

  datatype Aabb = Aabb(min: Vec, max: Vec)

  function HalfWidth(arena: ArenaId): int {
    if arena == 0 then 32426 else 24576
  }

  function SpawnReach(arena: ArenaId): int {
    if arena == 0 then 22528 else 18432
  }

  function Spawn(arena: ArenaId, i: Slot): Vec {
    var r := SpawnReach(arena);
    match i
    case 0 => Vec(-r, 0, -r) case 1 => Vec(r, 0, r) case 2 => Vec(-r, 0, r) case _ => Vec(r, 0, -r)
  }

  function Pillars(arena: ArenaId): seq<Aabb> {
    if arena == 0 then []
    else [Aabb(Vec(-10240, 0, -10240), Vec(-6144, 6144, -6144)), Aabb(Vec(6144, 0, -10240), Vec(10240, 6144, -6144)),
          Aabb(Vec(-10240, 0, 6144), Vec(-6144, 6144, 10240)), Aabb(Vec(6144, 0, 6144), Vec(10240, 6144, 10240))]
  }

  // ------------------------------------------------------------------ inputs

  function StickX(i: u16): int {
    i % 64 - 32
  }

  function StickY(i: u16): int {
    (i / 64) % 64 - 32
  }

  predicate JumpBit(i: u16) {
    (i / 4096) % 2 == 1
  }

  predicate BombBit(i: u16) {
    (i / 8192) % 2 == 1
  }

  predicate SetBit(i: u16) {
    (i / 16384) % 2 == 1
  }

  function PackInput(sx: int, sy: int, jump: bool, bomb: bool, set': bool): u16 {
    var x := Clamp(sx, -STICK_MAX, STICK_MAX);
    var y := Clamp(sy, -STICK_MAX, STICK_MAX);
    (x + 32) % 64 + ((y + 32) % 64) * 64
    + (if jump then 4096 else 0) + (if bomb then 8192 else 0) + (if set' then 16384 else 0)
  }

  /** Two six-bit fields and four flags above them, read back. */
  lemma FieldsBack(x: int, y: int, hi: int)
    requires 0 <= x < 64 && 0 <= y < 64 && 0 <= hi
    ensures var i := x + 64 * (y + 64 * hi);
      i % 64 == x && i / 64 == y + 64 * hi && (i / 64) % 64 == y && i / 4096 == hi
  {
    var m := y + 64 * hi;
    assert (x + 64 * m) / 64 == m && m / 64 == hi;
    ShiftTwice(x + 64 * m);
  }

  lemma ShiftTwice(i: int)
    ensures i / 4096 == (i / 64) / 64
  {
  }

  lemma FlagsBack(a: int, b: int, c: int)
    requires 0 <= a < 2 && 0 <= b < 2 && 0 <= c < 2
    ensures var hi := a + 2 * b + 4 * c; hi % 2 == a && (hi / 2) % 2 == b && (hi / 4) % 2 == c
  {
  }

  lemma Flags(i: int)
    ensures i / 8192 == (i / 4096) / 2 && i / 16384 == (i / 4096) / 4
  {
  }

  /** Packing an input and reading it back gives the stick clamped and the buttons. */
  lemma InputRoundTrip(sx: int, sy: int, jump: bool, bomb: bool, set': bool)
    ensures var i := PackInput(sx, sy, jump, bomb, set');
      && StickX(i) == Clamp(sx, -STICK_MAX, STICK_MAX) && StickY(i) == Clamp(sy, -STICK_MAX, STICK_MAX)
      && JumpBit(i) == jump && BombBit(i) == bomb && SetBit(i) == set'
  {
    var x, y := Clamp(sx, -STICK_MAX, STICK_MAX) + 32, Clamp(sy, -STICK_MAX, STICK_MAX) + 32;
    var a, b, c := if jump then 1 else 0, if bomb then 1 else 0, if set' then 1 else 0;
    var hi := a + 2 * b + 4 * c;
    FieldsBack(x, y, hi);
    FlagsBack(a, b, c);
    var i := PackInput(sx, sy, jump, bomb, set');
    assert i == x + 64 * (y + 64 * hi);
    Flags(i);
    hide PackInput, Clamp;
  }
}
