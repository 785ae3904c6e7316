// What a tick computes, word by word: every sum, difference, product, quotient and
// length of each stage, with the width the program gives it. Stage by stage these
// predicates follow arena_sim.dfy; arena_fits.dfy proves them over every run of map 0,
// which has no pillars.

module ArenaWords {
  import opened Basics
  import opened ArenaMath
  import opened ArenaTypes
  import opened ArenaSim

  predicate Int32(x: int) {
    -0x8000_0000 <= x < 0x8000_0000
  }

  predicate Int64(x: int) {
    -0x8000_0000_0000_0000 <= x < 0x8000_0000_0000_0000
  }

  predicate Words(v: Vec) {
    Int32(v.x) && Int32(v.y) && Int32(v.z)
  }

  /** qmul: a 64-bit product, and the 32 bits kept of it. */
  predicate MulFits(a: int, b: int) {
    Int64(a * b) && Int32(Mul(a, b))
  }

  /** qdiv: a 64-bit dividend, and the 32 bits kept of the quotient. */
  predicate DivFits(a: int, b: int)
    requires b > 0
  {
    Int64(a * ONE) && Int32(Div(a, b))
  }

  /** qlen2: two 64-bit squares, their unsigned sum, and the root. */
  predicate LenFits(x: int, z: int) {
    Int32(x) && Int32(z) && Int64(Sq(x)) && Int64(Sq(z)) && Sq(x) + Sq(z) < TWO64 && Int32(Len2(x, z))
  }

  /** qlen3. */
  predicate Len3Fits(v: Vec) {
    Words(v) && Int64(Sq(v.x)) && Int64(Sq(v.y)) && Int64(Sq(v.z)) && Sq(v.x) + Sq(v.y) + Sq(v.z) < TWO64
      && Int32(Len3(v))
  }

  /** Both components of speed s along direction dir. */
  predicate AimFits(dir: u16, s: int) {
    MulFits(Sin(dir), s) && MulFits(Cos(dir), s) && Int32(-Mul(Cos(dir), s))
  }

  /** (x, z) scaled to unit length d, then to s. */
  predicate UnitFits(x: int, z: int, d: int, s: int) {
    d > 0 ==> DivFits(x, d) && DivFits(z, d) && MulFits(Div(x, d), s) && MulFits(Div(z, d), s)
  }

  /** iatan2. */
  predicate AtanFits(y: int, x: int) {
    && Int32(x) && Int32(y) && Int32(-x) && Int32(-y)
    && (x != 0 || y != 0 ==> QuadrantFits(Abs(x), Abs(y)))
  }

  predicate QuadrantFits(ax: nat, ay: nat)
    requires ax != 0 || ay != 0
  {
    && (if ax > ay then DivFits(ay, ax) else DivFits(ax, ay))
    && var t := if ax > ay then Div(ay, ax) else Div(ax, ay);
       && Int32(ONE - t) && MulFits(1280, ONE - t) && MulFits(Mul(1280, ONE - t), t)
       && var corr := Mul(Mul(1280, ONE - t), t);
          Int64(corr * 0x2000) && Int64(0x2000 - (corr * 0x2000) / ONE) && Int64(t * (0x2000 - (corr * 0x2000) / ONE))
  }

  // --------------------------------------------------------------- collision

  predicate CollideFits(pos: Vec, r: int, c: Ctx) {
    Words(pos) && Int32(c.wx - r) && Int32(-(c.wx - r)) && Int32(c.wz - r) && Int32(-(c.wz - r))
  }

  predicate ClampFits(c: Ctx) {
    && Int32(c.wx - BOMB_RADIUS) && Int32(-(c.wx - BOMB_RADIUS))
    && Int32(c.wz - BOMB_RADIUS) && Int32(-(c.wz - BOMB_RADIUS))
  }

  // ------------------------------------------------------------ player's turn

  predicate StickFits(in': u16) {
    var x, y := StickX(in') * ONE, StickY(in') * ONE;
    Int32(x) && Int32(y) && Int32(-y) && LenFits(TruncDiv(x, STICK_MAX), TruncDiv(y, STICK_MAX)) && AtanFits(x, -y)
  }

  predicate SteerFits(p: Player, in': u16, c: Ctx) {
    && StickFits(in') && LenFits(p.vel.x, p.vel.z) && MulFits(RUN_SPEED, Tilt(in'))
    && Int32(Atan2(StickX(in') * ONE, -StickY(in') * ONE) - p.yaw) && Int32(p.yaw + TURN_RATE)
       && Int32(p.yaw - TURN_RATE)
    && (p.state != Tumble ==>
          var yaw := if Steering(p, in', c) then Heading(p, in') else p.yaw;
          var target := if Steering(p, in', c) then Mul(RUN_SPEED, Tilt(in')) else 0;
          var acc := if !OnGround(p) then AIR_CONTROL else if target == 0 then RUN_FRICTION else RUN_ACCEL;
          var speed := Approach(Len2(p.vel.x, p.vel.z), target, acc);
          Int32(target - Len2(p.vel.x, p.vel.z)) && Int32(speed) && AimFits(yaw, speed))
  }

  /** Throwing from the hands, singly or as one of a fan. */
  predicate ThrowFits(p: Player) {
    && Int32(p.pos.y + PLAYER_HEIGHT)
    && (forall extras: Slot, k: Slot :: Int32(p.yaw + FanAngle(extras, k)))
    && (forall dir: u16 :: AimFits(dir, THROW_SPEED) && AimFits(dir, SPREAD_SPEED))
  }

  /** Where the hands are. */
  predicate ReachFits(p: Player, reach: int) {
    && AimFits(p.yaw, reach)
    && Int32(p.pos.x + Mul(Sin(p.yaw), reach)) && Int32(p.pos.z - Mul(Cos(p.yaw), reach)) && Int32(p.pos.y + HAND_Y)
  }

  predicate LayFits(p: Player, c: Ctx) {
    ReachFits(p, HAND_FWD) && ReachFits(p, SET_OFFSET) && ClampFits(c)
  }

  predicate FlyFits(p: Player, c: Ctx) {
    var vy := Max(p.vel.y - GRAVITY, TERMINAL_VY);
    Int32(p.vel.y - GRAVITY) && CollideFits(Vec(p.pos.x + p.vel.x, p.pos.y + vy, p.pos.z + p.vel.z), PLAYER_RADIUS, c)
  }

  predicate UpkeepFits(p: Player) {
    var sp := Len2(p.vel.x, p.vel.z);
    LenFits(p.vel.x, p.vel.z) && Int32(sp - RUN_FRICTION) && UnitFits(p.vel.x, p.vel.z, sp, Max(sp - RUN_FRICTION, 0))
  }

  /** A player put on its spawn faces the centre. */
  predicate SpawnFits(arena: ArenaId) {
    forall i: Slot :: AtanFits(-Spawn(arena, i).x, -Spawn(arena, i).z)
  }

  predicate TurnFits(p: Player, i: Slot, bs: seq<Bomb>, in': u16, c: Ctx)
    requires p.held <= |bs| <= 0xFF
  {
    if p.state == Dead then SpawnFits(c.arena)
    else
      var r1 := Leap(Steer(p, in', c), in', c);
      SteerHands(p, in', c);
      var (r2, bs2) := Hands(r1, i, bs, in', c);
      var r3 := Lay(r2, i, bs2, in', c).0;
      SteerFits(p, in', c) && ThrowFits(r1) && LayFits(r2, c) && FlyFits(r3, c) && UpkeepFits(Fly(r3, c))
  }

  predicate PlayersFit(ps: Quad<Player>, bs: seq<Bomb>, inputs: Quad<u16>, i: nat, c: Ctx)
    requires |bs| <= 0xFF && forall j: Slot :: ps.At(j).held <= |bs|
    decreases 4 - i
  {
    if i >= 4 then true
    else
      TickLength(ps.At(i), i, bs, inputs.At(i), c);
      var (p, cs) := PlayerTick(ps.At(i), i, bs, inputs.At(i), c);
      TurnFits(ps.At(i), i, bs, inputs.At(i), c) && PlayersFit(ps.With(i, p), cs, inputs, i + 1, c)
  }

  // ------------------------------------------------------------- the pushouts

  predicate PairFits(pa: Vec, pb: Vec) {
    var dx, dz := pb.x - pa.x, pb.z - pa.z;
    var d := Len2(dx, dz);
    && LenFits(dx, dz) && Int32(2 * PLAYER_RADIUS - d)
    && (d < 2 * PLAYER_RADIUS ==>
          var push := (2 * PLAYER_RADIUS - d) / 2;
          var ux := if d > 0 then Div(dx, d) else ONE;
          var uz := if d > 0 then Div(dz, d) else 0;
          && UnitFits(dx, dz, d, push) && MulFits(ux, push) && MulFits(uz, push)
          && Int32(pa.x - Mul(ux, push)) && Int32(pa.z - Mul(uz, push))
          && Int32(pb.x + Mul(ux, push)) && Int32(pb.z + Mul(uz, push)))
  }

  predicate PushFits(ps: Quad<Player>, a: nat, b: nat)
    decreases 4 - a, 4 - b
  {
    if a >= 4 then true
    else if b >= 4 then PushFits(ps, a + 1, a + 2)
    else PairFits(ps.At(a).pos, ps.At(b).pos) && PushFits(PushPair(ps, a, b), a, b + 1)
  }

  // -------------------------------------------------------------------- bombs

  /** The differences of two points, and their lengths in the plane and in space. */
  predicate GapFits(a: Vec, b: Vec) {
    var d := Vec(a.x - b.x, a.y - b.y, a.z - b.z);
    Len3Fits(d) && LenFits(d.x, d.z)
  }

  function Chest(p: Player): Vec {
    p.pos.(y := p.pos.y + PLAYER_HEIGHT / 2)
  }

  /** A bomb at pos against every player and every bomb of the table. */
  predicate ContactFits(pos: Vec, w: World) {
    && (forall j: Slot :: Int32(Chest(w.players.At(j)).y) && GapFits(pos, Chest(w.players.At(j))))
    && (forall j :: 0 <= j < |w.bombs| ==> GapFits(pos, w.bombs[j].pos))
  }

  predicate FlyBombFits(b: Bomb, w: World, c: Ctx) {
    var vy := b.vel.y - GRAVITY;
    var pos := Vec(b.pos.x + b.vel.x, b.pos.y + vy, b.pos.z + b.vel.z);
    Int32(vy) && ContactFits(pos, w) && CollideFits(pos, BOMB_RADIUS, c)
  }

  predicate FallBombFits(b: Bomb, ps: Quad<Player>, c: Ctx) {
    && ReachFits(ps.At(b.owner), HAND_FWD) && ClampFits(c)
    && Int32(b.vel.y - BOMB_GRAVITY) && Int32(b.pos.y + (b.vel.y - BOMB_GRAVITY)) && Int32(b.pos.y - BOMB_GRAVITY)
  }

  predicate SlideBombFits(b: Bomb, w: World, c: Ctx) {
    var pos := b.pos.(x := b.pos.x + b.vel.x, z := b.pos.z + b.vel.z);
    ContactFits(pos, w) && CollideFits(pos, BOMB_RADIUS, c)
  }

  predicate KickFits(b: Bomb, ps: Quad<Player>) {
    forall j: Slot ::
      GapFits(b.pos, Chest(ps.At(j))) && LenFits(ps.At(j).vel.x, ps.At(j).vel.z) && AimFits(ps.At(j).yaw, KICK_SPEED)
  }

  predicate StandOffFits(pos: Vec, b: Vec) {
    var dx, dz := pos.x - b.x, pos.z - b.z;
    var d := Len2(dx, dz);
    && LenFits(dx, dz) && Int32(BOMB_STAND_GAP - d) && Int32(pos.x + BOMB_STAND_GAP)
    && (0 < d < BOMB_STAND_GAP ==>
          && UnitFits(dx, dz, d, BOMB_STAND_GAP - d)
          && Int32(pos.x + Mul(Div(dx, d), BOMB_STAND_GAP - d)) && Int32(pos.z + Mul(Div(dz, d), BOMB_STAND_GAP - d)))
  }

  predicate StandFits(b: Bomb, ps: Quad<Player>, n: u8, pj: nat)
    decreases 4 - pj
  {
    if pj >= 4 || pj >= n then true
    else
      var p := ps.At(pj);
      if p.state == Dead || b.bounced == pj + 1 || !OnGround(p) then StandFits(b, ps, n, pj + 1)
      else StandOffFits(p.pos, b.pos) && StandFits(b, ps.With(pj, p.(pos := StandOff(p.pos, b.pos))), n, pj + 1)
  }

  predicate BombFits(w: World, i: nat, c: Ctx)
    requires i < |w.bombs|
  {
    var b := w.bombs[i];
    match b.state
    case Held => Int32(w.players.At(b.owner).pos.y + PLAYER_HEIGHT)
    case Airborne => FlyBombFits(b, w, c)
    case Falling => FallBombFits(b, w.players, c)
    case Sliding => SlideBombFits(b, w, c)
    case Settled => KickFits(b, w.players) && StandFits(KickScan(b, w.players, c.n, 0), w.players, c.n, 0)
    case _ => true
  }

  predicate BombsFit(w: World, i: nat, c: Ctx)
    decreases |w.bombs| - i
  {
    if i >= |w.bombs| then true else BombFits(w, i, c) && BombsFit(BombTick(w, i, c), i + 1, c)
  }

  // ------------------------------------------------------------------- blasts

  /** A hit of one player, as far as it computes. */
  predicate StruckFits(p: Player, center: Vec) {
    var dx, dz := p.pos.x - center.x, p.pos.z - center.z;
    Int32(Chest(p).y) && GapFits(Chest(p), center) && UnitFits(dx, dz, Len2(dx, dz), KNOCKBACK)
  }

  predicate BlastFits(w: World, j: nat)
    requires j < |w.blasts|
  {
    var l := w.blasts[j];
    l.ttl != 0 ==>
      var g := Grown(l);
      && Int64(BLAST_RADIUS * g.radiusT) && Int32(Radius(g)) && Int32(Radius(g) + BOMB_RADIUS)
         && Int32(Radius(g) + PLAYER_RADIUS)
      && (forall k :: 0 <= k < |w.bombs| ==> GapFits(w.bombs[k].pos, g.center))
      && (forall k: Slot :: StruckFits(w.players.At(k), g.center))
  }

  predicate BlastsFit(w: World, j: nat, c: Ctx)
    requires HandsOk(w)
    decreases |w.blasts| - j
  {
    if j >= |w.blasts| then true else BlastFits(w, j) && BlastsFit(BlastTick(w, j, c), j + 1, c)
  }

  // ------------------------------------------------------------------- a tick

  predicate PhaseFits(s: State) {
    && Int32(s.phaseTimer + 1) && Int32(PhaseStep(s).shrink * SHRINK_STEP)
    && Int32(HalfWidth(s.arena) - PhaseStep(s).shrink * SHRINK_STEP) && SpawnFits(s.arena)
  }

  predicate WorldFits(w: World, inputs: Quad<u16>, c: Ctx)
    requires Sized(w) && HandsOk(w)
  {
    var (ps, bs) := PlayersFrom(w.players, w.bombs, inputs, 0, c);
    var pushed := World(PushFrom(ps, 0, 1), bs, w.blasts);
    && PlayersFit(w.players, w.bombs, inputs, 0, c) && PushFits(ps, 0, 1) && BombsFit(pushed, 0, c)
    && BlastsFit(DetonateFrom(BombsFrom(pushed, 0, c), 0), 0, c)
  }

  /** Every word the tick computes fits. */
  predicate TickFits(s: State, inputs: Quad<u16>)
    requires StateOk(s)
  {
    PhaseFits(s) && WorldFits(PhaseStep(s).world, inputs, CtxOf(PhaseStep(s)))
  }
}
