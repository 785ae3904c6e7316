// One 60 Hz tick as functions, stage by stage in the program's order: phase,
// players, pushout, bombs, detonations and blasts, round end. Each stage takes
// only what it reads.

module ArenaSim {
  import opened Basics
  import opened ArenaMath
  import opened ArenaTypes

  /** What a tick's stages share: is play on, where the walls are, which map, how
      many players. */
  datatype Ctx = Ctx(play: bool, wx: int, wz: int, arena: ArenaId, n: u8)

  // --------------------------------------------------------------- collision

  predicate OnGround(p: Player) {
    p.pos.y <= 0 && p.vel.y <= 0
  }

  /** pushout_aabb: out of a box along the normal, or along the shallower axis. */
  function PushOutBox(pos: Vec, r: int, b: Aabb): Vec {
    if pos.y >= b.max.y || pos.y + PLAYER_HEIGHT <= b.min.y then pos
    else
      var dx := pos.x - Clamp(pos.x, b.min.x, b.max.x);
      var dz := pos.z - Clamp(pos.z, b.min.z, b.max.z);
      var d := Len2(dx, dz);
      if d >= r then pos
      else if d > 0 then pos.(x := pos.x + Mul(Div(dx, d), r - d), z := pos.z + Mul(Div(dz, d), r - d))
      else
        var lx, rx := pos.x - b.min.x, b.max.x - pos.x;
        var lz, rz := pos.z - b.min.z, b.max.z - pos.z;
        if Min(lx, rx) <= Min(lz, rz) then pos.(x := pos.x + if lx < rx then -(lx + r) else rx + r)
        else pos.(z := pos.z + if lz < rz then -(lz + r) else rz + r)
  }

  function PillarsFrom(pos: Vec, r: int, boxes: seq<Aabb>): Vec
    decreases |boxes|
  {
    if boxes == [] then pos else PillarsFrom(PushOutBox(pos, r, boxes[0]), r, boxes[1..])
  }

  /** One axis against a pair of walls at -l and l. */
  function Wall(x: int, v: int, l: int): (int, int) {
    var (x1, v1) := if x < -l then (-l, if v < 0 then 0 else v) else (x, v);
    if x1 > l then (l, if v1 > 0 then 0 else v1) else (x1, v1)
  }

  /** collide_static: floor, walls, pillars. */
  function Collide(pos: Vec, vel: Vec, r: int, c: Ctx): (Vec, Vec) {
    var (y, vy) := if pos.y < 0 then (0, if vel.y < 0 then 0 else vel.y) else (pos.y, vel.y);
    var (x, vx) := Wall(pos.x, vel.x, c.wx - r);
    var (z, vz) := Wall(pos.z, vel.z, c.wz - r);
    (PillarsFrom(Vec(x, y, z), r, Pillars(c.arena)), Vec(vx, vy, vz))
  }

  // ------------------------------------------------------------- free slots

  function FreeBombFrom(bs: seq<Bomb>, i: nat): (r: Option<nat>)
    ensures r.Some? ==> i <= r.value < |bs| && bs[r.value].state == Free
    ensures r.Some? ==> forall j :: i <= j < r.value ==> bs[j].state != Free
    ensures r.None? ==> forall j :: i <= j < |bs| ==> bs[j].state != Free
    decreases |bs| - i
  {
    if i >= |bs| then None else if bs[i].state == Free then Some(i) else FreeBombFrom(bs, i + 1)
  }

  function FreeBlastFrom(ls: seq<Blast>, i: nat): (r: Option<nat>)
    ensures r.Some? ==> i <= r.value < |ls| && ls[r.value].ttl == 0
    ensures r.None? ==> forall j :: i <= j < |ls| ==> ls[j].ttl != 0
    decreases |ls| - i
  {
    if i >= |ls| then None else if ls[i].ttl == 0 then Some(i) else FreeBlastFrom(ls, i + 1)
  }

  function FreeCount(bs: seq<Bomb>, i: nat): nat
    decreases |bs| - i
  {
    if i >= |bs| then 0 else (if bs[i].state == Free then 1 else 0) + FreeCount(bs, i + 1)
  }

  // ------------------------------------------------------------ player: feet

  function Short(a: int): int {
    (a + 0x8000) % 0x1_0000 - 0x8000
  }

  /** How far the stick is tilted, at most one. */
  function Tilt(in': u16): int {
    Min(Len2(TruncDiv(StickX(in') * ONE, STICK_MAX), TruncDiv(StickY(in') * ONE, STICK_MAX)), ONE)
  }

  predicate Steering(p: Player, in': u16, c: Ctx) {
    c.play && p.state != Tumble && Tilt(in') > DEADZONE
  }

  function Heading(p: Player, in': u16): u16 {
    var target := Atan2(StickX(in') * ONE, -StickY(in') * ONE);
    if Len2(p.vel.x, p.vel.z) <= TURN_SNAP_SPEED then target
    else (p.yaw + Clamp(Short(target - p.yaw), -TURN_RATE, TURN_RATE)) % 0x1_0000
  }

  /** The scalar speed's approach to its target. */
  function Approach(speed: int, target: int, acc: int): int {
    speed + Clamp(target - speed, -acc, acc)
  }

  function Steer(p: Player, in': u16, c: Ctx): Player {
    var yaw := if Steering(p, in', c) then Heading(p, in') else p.yaw;
    var target := if Steering(p, in', c) then Mul(RUN_SPEED, Tilt(in')) else 0;
    if p.state == Tumble then p.(yaw := yaw)
    else
      var acc := if !OnGround(p) then AIR_CONTROL else if target == 0 then RUN_FRICTION else RUN_ACCEL;
      var speed := Approach(Len2(p.vel.x, p.vel.z), target, acc);
      p.(yaw := yaw, vel := Vec(Mul(Sin(yaw), speed), p.vel.y, -Mul(Cos(yaw), speed)))
  }

  function Leap(p: Player, in': u16, c: Ctx): Player {
    if c.play && p.state != Tumble && OnGround(p) && JumpBit(in') && !JumpBit(p.lastInput)
       && !(p.held != 0 && p.timer >= SPREAD_TICKS)
    then p.(vel := p.vel.(y := JUMP_IMPULSE), state := Jump)
    else p
  }

  // ----------------------------------------------------------- player: hands

  /** throw_bomb. */
  function Thrown(p: Player, b: Bomb, dir: u16, fwd: int, up: int): Bomb {
    b.(pos := p.pos.(y := p.pos.y + PLAYER_HEIGHT),
       vel := Vec(Mul(Sin(dir), fwd), up, -Mul(Cos(dir), fwd)),
       state := Airborne, bounced := 0)
  }

  /** The spread's angle offsets for a fan of extras + 1 bombs. */
  function FanAngle(extras: nat, k: nat): int {
    match extras
    case 0 => 0
    case 1 => if k == 0 then -0x071C else if k == 1 then 0x071C else 0
    case 2 => if k == 0 then 0 else if k == 1 then -0x0E38 else if k == 2 then 0x0E38 else 0
    case _ => if k == 0 then -0x071C else if k == 1 then 0x071C else if k == 2 then -0x1555 else 0x1555
  }

  function FanDir(p: Player, extras: nat, k: nat): u16 {
    (p.yaw + FanAngle(extras, k)) % 0x1_0000
  }

  function Extras(p: Player, bs: seq<Bomb>): int {
    Max(Min(Min(MAX_LIVE - p.live, FreeCount(bs, 0)), 3), 0)
  }

  /** The spread's further bombs, from the k-th on; stops if no bomb is free. */
  function FanFrom(p: Player, i: Slot, bs: seq<Bomb>, extras: nat, k: nat): (Player, seq<Bomb>)
    decreases extras + 1 - k
  {
    if k > extras then (p, bs)
    else
      match FreeBombFrom(bs, 0)
      case None => (p, bs)
      case Some(j) =>
        var b := Thrown(p, NO_BOMB.(owner := i), FanDir(p, extras, k), SPREAD_SPEED, SPREAD_UP);
        FanFrom(p.(live := (p.live + 1) % 0x100), i, bs[j := b], extras, k + 1)
  }

  /** Letting go of the held bomb. */
  function Release(p: Player, i: Slot, bs: seq<Bomb>): (Player, seq<Bomb>)
    requires 1 <= p.held <= |bs|
  {
    var h := p.held - 1;
    var (q, cs) :=
      if p.timer < SPREAD_TICKS then (p, bs[h := Thrown(p, bs[h], p.yaw, THROW_SPEED, THROW_UP)])
      else
        var extras := Extras(p, bs);
        FanFrom(p, i, bs[h := Thrown(p, bs[h], FanDir(p, extras, 0), SPREAD_SPEED, SPREAD_UP)], extras, 1);
    (q.(held := 0, timer := 0), cs)
  }

  /** Grab, hold or release. */
  function Hands(p: Player, i: Slot, bs: seq<Bomb>, in': u16, c: Ctx): (Player, seq<Bomb>)
    requires p.held <= |bs| <= 0xFF
  {
    var now, was := BombBit(in'), BombBit(p.lastInput);
    if !c.play || p.state == Tumble then (p, bs)
    else if now && !was && p.held == 0 && p.live < MAX_LIVE then
      match FreeBombFrom(bs, 0)
      case None => (p, bs)
      case Some(j) =>
        (p.(held := j + 1, live := (p.live + 1) % 0x100, timer := 0), bs[j := NO_BOMB.(owner := i, state := Held)])
    else if now && p.held != 0 then (p.(timer := Min(p.timer + 1, 0xFFFF)), bs)
    else if !now && was && p.held != 0 then Release(p, i, bs)
    else (p, bs)
  }

  function InWalls(pos: Vec, c: Ctx): Vec {
    var bx, bz := c.wx - BOMB_RADIUS, c.wz - BOMB_RADIUS;
    Vec(Clamp(pos.x, -bx, bx), pos.y, Clamp(pos.z, -bz, bz))
  }

  /** A freshly set bomb: in the hands when airborne, else ahead on the floor. */
  function Laid(p: Player, i: Slot, c: Ctx): Bomb {
    var reach := if p.pos.y > 0 then HAND_FWD else SET_OFFSET;
    var pos := Vec(p.pos.x + Mul(Sin(p.yaw), reach), if p.pos.y > 0 then p.pos.y + HAND_Y else 0,
                   p.pos.z - Mul(Cos(p.yaw), reach));
    Bomb(InWalls(pos, c), ORIGIN, i, if p.pos.y > 0 then Falling else Settled, FUSE_TICKS, i + 1,
         if p.pos.y > 0 then ATTACH_TICKS else 0)
  }

  predicate Lays(p: Player, in': u16, c: Ctx) {
    c.play && p.state != Tumble && p.held == 0 && SetBit(in') && !SetBit(p.lastInput) && p.live < MAX_LIVE
  }

  function Lay(p: Player, i: Slot, bs: seq<Bomb>, in': u16, c: Ctx): (Player, seq<Bomb>) {
    if !Lays(p, in', c) then (p, bs)
    else
      match FreeBombFrom(bs, 0)
      case None => (p, bs)
      case Some(j) => (p.(live := (p.live + 1) % 0x100), bs[j := Laid(p, i, c)])
  }

  // ------------------------------------------------------------ player: body

  function Fly(p: Player, c: Ctx): Player {
    var vy := Max(p.vel.y - GRAVITY, TERMINAL_VY);
    var vel := p.vel.(y := vy);
    var (pos, v) := Collide(Vec(p.pos.x + vel.x, p.pos.y + vy, p.pos.z + vel.z), vel, PLAYER_RADIUS, c);
    p.(pos := pos, vel := v)
  }

  /** The skid of a tumbling player on the ground. */
  function Skid(p: Player): Vec {
    var sp := Len2(p.vel.x, p.vel.z);
    if !OnGround(p) || sp == 0 then p.vel
    else
      var ns := Max(sp - RUN_FRICTION, 0);
      p.vel.(x := Mul(Div(p.vel.x, sp), ns), z := Mul(Div(p.vel.z, sp), ns))
  }

  function Upkeep(p: Player): Player {
    match p.state
    case Tumble =>
      var q := p.(timer := if p.timer > 0 then p.timer - 1 else 0, vel := Skid(p));
      if q.timer <= INVULN_TICKS && OnGround(q) then q.(state := Idle, vel := Vec(0, q.vel.y, 0)) else q
    case Jump => if OnGround(p) then p.(state := Idle) else p
    case Dead => p
    case _ =>
      p.(state := if Len2(p.vel.x, p.vel.z) > RUN_THRESHOLD then Run else Idle,
         timer := if p.timer > 0 && p.held == 0 then p.timer - 1 else p.timer)
  }

  /** A dead player waits for its respawn. */
  function Wait(p: Player, i: Slot, in': u16, c: Ctx): Player {
    var q := p.(lastInput := in');
    if !c.play then q
    else
      var r := q.(timer := if q.timer > 0 then q.timer - 1 else 0);
      if r.timer > 0 then r
      else
        var pos := Spawn(c.arena, i);
        r.(pos := pos, vel := ORIGIN, hp := START_HP, state := Idle, yaw := Atan2(-pos.x, -pos.z),
           held := 0, timer := INVULN_TICKS)
  }

  /** player_tick. */
  function PlayerTick(p: Player, i: Slot, bs: seq<Bomb>, in': u16, c: Ctx): (Player, seq<Bomb>)
    requires p.held <= |bs| <= 0xFF
  {
    if p.state == Dead then (Wait(p, i, in', c), bs)
    else
      var r1 := Leap(Steer(p, in', c), in', c);
      var (r2, bs2) := Hands(r1, i, bs, in', c);
      var (r3, bs3) := Lay(r2, i, bs2, in', c);
      (Upkeep(Fly(r3, c)).(lastInput := in'), bs3)
  }

  // ------------------------------------------------------------ the pushouts

  /** What the stages after the players' own leave alone. */
  predicate KeepsHands(ps: Quad<Player>, qs: Quad<Player>) {
    forall i: Slot :: qs.At(i).held == ps.At(i).held
  }

  /** Two live players closer than twice their radius move apart. */
  function PushPair(ps: Quad<Player>, a: Slot, b: Slot): (qs: Quad<Player>)
    ensures KeepsHands(ps, qs)
  {
    var pa, pb := ps.At(a), ps.At(b);
    if pa.state == Dead || pb.state == Dead then ps
    else
      var dx, dz := pb.pos.x - pa.pos.x, pb.pos.z - pa.pos.z;
      var d := Len2(dx, dz);
      if d >= 2 * PLAYER_RADIUS then ps
      else
        var push := (2 * PLAYER_RADIUS - d) / 2;
        var ux := if d > 0 then Div(dx, d) else ONE;
        var uz := if d > 0 then Div(dz, d) else 0;
        var sx, sz := Mul(ux, push), Mul(uz, push);
        ps.With(a, pa.(pos := pa.pos.(x := pa.pos.x - sx, z := pa.pos.z - sz)))
        .With(b, pb.(pos := pb.pos.(x := pb.pos.x + sx, z := pb.pos.z + sz)))
  }

  function PushFrom(ps: Quad<Player>, a: nat, b: nat): (qs: Quad<Player>)
    ensures KeepsHands(ps, qs)
    decreases 4 - a, 4 - b
  {
    if a >= 4 then ps
    else if b >= 4 then PushFrom(ps, a + 1, a + 2)
    else PushFrom(PushPair(ps, a, b), a, b + 1)
  }

  // ----------------------------------------------------------------- bombs

  /** Does the thrown bomb touch a player from pj on (the thrower excepted)? */
  predicate HitsPlayer(b: Bomb, ps: Quad<Player>, n: u8, pj: nat)
    decreases 4 - pj
  {
    if pj >= 4 || pj >= n then false
    else
      var p := ps.At(pj);
      || (!(pj == b.owner && b.bounced == 0) && p.state != Dead
          && Len3(Vec(b.pos.x - p.pos.x, b.pos.y - (p.pos.y + PLAYER_HEIGHT / 2), b.pos.z - p.pos.z))
             < PLAYER_RADIUS + BOMB_RADIUS)
      || HitsPlayer(b, ps, n, pj + 1)
  }

  predicate OnFloor(b: Bomb) {
    b.state == Settled || b.state == Sliding
  }

  /** Does bomb i, thrown, touch a bomb on the floor from bj on? */
  predicate HitsBomb(b: Bomb, i: nat, bs: seq<Bomb>, bj: nat)
    decreases |bs| - bj
  {
    if bj >= |bs| then false
    else
      var o := bs[bj];
      || (bj != i && OnFloor(o)
          && Len3(Vec(b.pos.x - o.pos.x, b.pos.y - o.pos.y, b.pos.z - o.pos.z)) < 2 * BOMB_RADIUS)
      || HitsBomb(b, i, bs, bj + 1)
  }

  /** BSTATE_AIRBORNE: any contact detonates. */
  function FlyBomb(b: Bomb, i: nat, w: World, c: Ctx): Bomb {
    var vel := b.vel.(y := b.vel.y - GRAVITY);
    var m := b.(vel := vel, pos := Vec(b.pos.x + vel.x, b.pos.y + vel.y, b.pos.z + vel.z));
    if HitsPlayer(m, w.players, c.n, 0) || HitsBomb(m, i, w.bombs, 0) then m.(state := Exploding)
    else
      var (pos, v) := Collide(m.pos, m.vel, BOMB_RADIUS, c);
      var q := m.(pos := pos, vel := v);
      if pos != m.pos || v != m.vel then q.(state := Exploding)
      else if q.pos.y <= 0 && q.vel.y < 0 then q.(pos := q.pos.(y := 0), state := Exploding)
      else q
  }

  /** The fuse burns down by one and sets the bomb off at zero. */
  function Burn(b: Bomb): Bomb {
    var q := b.(fuse := if b.fuse > 0 then b.fuse - 1 else 0);
    if q.fuse == 0 then q.(state := Exploding) else q
  }

  /** BSTATE_FALLING: ride the hands, then fall and settle; the fuse burns. */
  function FallBomb(b: Bomb, ps: Quad<Player>, c: Ctx): Bomb {
    var op := ps.At(b.owner);
    var r := if b.attach > 0 && (op.state == Dead || op.state == Tumble)
             then b.(attach := 0, vel := b.vel.(y := 0)) else b;
    var m :=
      if r.attach > 0 then
        var pos := Vec(op.pos.x + Mul(Sin(op.yaw), HAND_FWD), op.pos.y + HAND_Y, op.pos.z - Mul(Cos(op.yaw), HAND_FWD));
        r.(pos := InWalls(pos, c), attach := r.attach - 1,
           vel := if r.attach == 1 then r.vel.(y := 0) else r.vel)
      else
        var vy := r.vel.y - BOMB_GRAVITY;
        if r.pos.y + vy <= 0 then r.(pos := r.pos.(y := 0), vel := r.vel.(y := 0), state := Settled)
        else r.(pos := r.pos.(y := r.pos.y + vy), vel := r.vel.(y := vy));
    Burn(m)
  }

  /** A sliding bomb against the players from pj on: touching one detonates it,
      the kicker only once it has got clear. */
  function SlideScan(b: Bomb, ps: Quad<Player>, n: u8, pj: nat): Bomb
    decreases 4 - pj
  {
    if pj >= 4 || pj >= n then b
    else
      var p := ps.At(pj);
      var dist := Len2(b.pos.x - p.pos.x, b.pos.z - p.pos.z);
      var touch := PLAYER_RADIUS + BOMB_RADIUS;
      if p.state == Dead || p.pos.y > 2 * BOMB_RADIUS then SlideScan(b, ps, n, pj + 1)
      else if b.bounced == pj + 1 then
        SlideScan(if dist >= touch + GRACE_GAP then b.(bounced := 0) else b, ps, n, pj + 1)
      else if dist < touch then b.(state := Exploding)
      else SlideScan(b, ps, n, pj + 1)
  }

  predicate SlidesIntoBomb(b: Bomb, i: nat, bs: seq<Bomb>, bj: nat)
    decreases |bs| - bj
  {
    if bj >= |bs| then false
    else
      var o := bs[bj];
      || (bj != i && OnFloor(o) && Len2(b.pos.x - o.pos.x, b.pos.z - o.pos.z) < 2 * BOMB_RADIUS)
      || SlidesIntoBomb(b, i, bs, bj + 1)
  }

  /** BSTATE_SLIDING. */
  function SlideBomb(b: Bomb, i: nat, w: World, c: Ctx): Bomb {
    var m := SlideScan(b.(pos := b.pos.(x := b.pos.x + b.vel.x, z := b.pos.z + b.vel.z)), w.players, c.n, 0);
    if m.state != Sliding then m
    else if SlidesIntoBomb(m, i, w.bombs, 0) then m.(state := Exploding)
    else
      var (pos, v) := Collide(m.pos, m.vel, BOMB_RADIUS, c);
      var q := m.(pos := pos, vel := v);
      if pos.x != m.pos.x || pos.z != m.pos.z || v.x != m.vel.x || v.z != m.vel.z then q.(state := Exploding)
      else Burn(q)
  }

  /** A settled bomb against the players from pj on: the first moving one that
      touches it kicks it. */
  function KickScan(b: Bomb, ps: Quad<Player>, n: u8, pj: nat): Bomb
    decreases 4 - pj
  {
    if pj >= 4 || pj >= n then b
    else
      var p := ps.At(pj);
      var dist := Len2(b.pos.x - p.pos.x, b.pos.z - p.pos.z);
      var touch := PLAYER_RADIUS + BOMB_RADIUS;
      if p.state == Dead || p.state == Tumble then KickScan(b, ps, n, pj + 1)
      else if b.bounced == pj + 1 then
        KickScan(if dist >= touch + GRACE_GAP then b.(bounced := 0) else b, ps, n, pj + 1)
      else if dist >= touch || p.pos.y > PLAYER_HEIGHT / 2 || Len2(p.vel.x, p.vel.z) < KICK_MIN_VEL
      then KickScan(b, ps, n, pj + 1)
      else
        b.(state := Sliding, pos := b.pos.(y := 0),
           vel := Vec(Mul(Sin(p.yaw), KICK_SPEED), 0, -Mul(Cos(p.yaw), KICK_SPEED)), bounced := pj + 1)
  }

  /** Where a grounded player inside the stand gap of a settled bomb ends up. */
  function StandOff(pos: Vec, b: Vec): Vec {
    var dx, dz := pos.x - b.x, pos.z - b.z;
    var d := Len2(dx, dz);
    if d >= BOMB_STAND_GAP then pos
    else if d > 0 then
      pos.(x := pos.x + Mul(Div(dx, d), BOMB_STAND_GAP - d), z := pos.z + Mul(Div(dz, d), BOMB_STAND_GAP - d))
    else pos.(x := pos.x + BOMB_STAND_GAP)
  }

  function StandScan(b: Bomb, ps: Quad<Player>, n: u8, pj: nat): (qs: Quad<Player>)
    ensures KeepsHands(ps, qs)
    decreases 4 - pj
  {
    if pj >= 4 || pj >= n then ps
    else
      var p := ps.At(pj);
      if p.state == Dead || b.bounced == pj + 1 || !OnGround(p) then StandScan(b, ps, n, pj + 1)
      else StandScan(b, ps.With(pj, p.(pos := StandOff(p.pos, b.pos))), n, pj + 1)
  }

  /** Stage 4 for bomb i. */
  function BombTick(w: World, i: nat, c: Ctx): (v: World)
    requires i < |w.bombs|
    ensures |v.bombs| == |w.bombs| && v.blasts == w.blasts && KeepsHands(w.players, v.players)
  {
    var b := w.bombs[i];
    match b.state
    case Held =>
      var p := w.players.At(b.owner);
      w.(bombs := w.bombs[i := b.(pos := p.pos.(y := p.pos.y + PLAYER_HEIGHT))])
    case Airborne => w.(bombs := w.bombs[i := FlyBomb(b, i, w, c)])
    case Falling => w.(bombs := w.bombs[i := FallBomb(b, w.players, c)])
    case Sliding => w.(bombs := w.bombs[i := SlideBomb(b, i, w, c)])
    case Settled =>
      var k := KickScan(b, w.players, c.n, 0);
      if k.state != Settled then w.(bombs := w.bombs[i := k])
      else w.(bombs := w.bombs[i := Burn(k)], players := StandScan(k, w.players, c.n, 0))
    case _ => w
  }

  function BombsFrom(w: World, i: nat, c: Ctx): (v: World)
    ensures |v.bombs| == |w.bombs| && v.blasts == w.blasts && KeepsHands(w.players, v.players)
    decreases |w.bombs| - i
  {
    if i >= |w.bombs| then w else BombsFrom(BombTick(w, i, c), i + 1, c)
  }

  // ---------------------------------------------------- detonations, blasts

  /** detonate: a blast if there is room, the owner's count, the slot. */
  function Detonate(w: World, i: nat): (v: World)
    requires i < |w.bombs|
    ensures |v.bombs| == |w.bombs| && |v.blasts| == |w.blasts| && KeepsHands(w.players, v.players)
  {
    var b := w.bombs[i];
    var o := w.players.At(b.owner);
    var blasts := match FreeBlastFrom(w.blasts, 0)
                  case None => w.blasts
                  case Some(j) => w.blasts[j := Blast(b.pos, 0, b.owner, BLAST_TTL)];
    World(w.players.With(b.owner, o.(live := if o.live > 0 then o.live - 1 else 0)),
          w.bombs[i := b.(state := Free)], blasts)
  }

  function DetonateFrom(w: World, i: nat): (v: World)
    ensures |v.bombs| == |w.bombs| && |v.blasts| == |w.blasts| && KeepsHands(w.players, v.players)
    decreases |w.bombs| - i
  {
    if i >= |w.bombs| then w
    else DetonateFrom(if w.bombs[i].state == Exploding then Detonate(w, i) else w, i + 1)
  }

  predicate Chainable(b: Bomb) {
    b.state == Settled || b.state == Airborne || b.state == Sliding || b.state == Falling
  }

  function ChainOne(b: Bomb, center: Vec, radius: int): Bomb {
    if Chainable(b) && Len3(Vec(b.pos.x - center.x, b.pos.y - center.y, b.pos.z - center.z)) < radius + BOMB_RADIUS
    then b.(state := Exploding) else b
  }

  function ChainFrom(bs: seq<Bomb>, center: Vec, radius: int, i: nat): (cs: seq<Bomb>)
    ensures |cs| == |bs|
    ensures forall j :: 0 <= j < |bs| ==> cs[j] == if i <= j then ChainOne(bs[j], center, radius) else bs[j]
    decreases |bs| - i
  {
    if i >= |bs| then bs else ChainFrom(bs[i := ChainOne(bs[i], center, radius)], center, radius, i + 1)
  }

  /** Is this player open to a blast at that distance? */
  predicate Exposed(p: Player) {
    p.state != Dead && p.hp != 0 && p.state != Tumble && p.timer == 0
  }

  predicate InReach(p: Player, center: Vec, radius: int) {
    Len3(Vec(p.pos.x - center.x, (p.pos.y + PLAYER_HEIGHT / 2) - center.y, p.pos.z - center.z)) < radius + PLAYER_RADIUS
  }

  /** The hit itself: damage, knockback, tumble, and death at zero. */
  function Struck(p: Player, center: Vec): Player {
    var dx, dz := p.pos.x - center.x, p.pos.z - center.z;
    var d := Len2(dx, dz);
    var ux := if d > 0 then Div(dx, d) else ONE;
    var uz := if d > 0 then Div(dz, d) else 0;
    var hp := (p.hp - 1) % 0x100;
    p.(hp := hp, vel := Vec(Mul(ux, KNOCKBACK), KNOCKBACK_UP, Mul(uz, KNOCKBACK)), held := 0,
       state := if hp == 0 then Dead else Tumble,
       timer := if hp == 0 then RESPAWN_TICKS else TUMBLE_TICKS + INVULN_TICKS)
  }

  /** What a hit player drops. */
  function Dropped(b: Bomb, p: Player, i: Slot): Bomb {
    b.(state := Settled, fuse := FUSE_TICKS, pos := p.pos.(y := 0), vel := ORIGIN, bounced := i + 1)
  }

  function Damage(w: World, center: Vec, radius: int, i: Slot): World
    requires w.players.At(i).held <= |w.bombs|
  {
    var p := w.players.At(i);
    if !Exposed(p) || !InReach(p, center, radius) then w
    else
      w.(players := w.players.With(i, Struck(p, center)),
         bombs := if p.held == 0 then w.bombs else w.bombs[p.held - 1 := Dropped(w.bombs[p.held - 1], p, i)])
  }

  /** Hands hold bombs of the table. */
  predicate HandsOk(w: World) {
    forall i: Slot :: w.players.At(i).held <= |w.bombs|
  }

  function DamageFrom(w: World, center: Vec, radius: int, n: u8, i: nat): (v: World)
    requires HandsOk(w)
    ensures HandsOk(v) && |v.bombs| == |w.bombs| && v.blasts == w.blasts
    decreases 4 - i
  {
    if i >= 4 || i >= n then w else DamageFrom(Damage(w, center, radius, i), center, radius, n, i + 1)
  }

  function Grown(l: Blast): Blast
    requires l.ttl > 0
  {
    l.(ttl := l.ttl - 1, radiusT := if l.radiusT < BLAST_GROW then l.radiusT + 1 else l.radiusT)
  }

  function Radius(l: Blast): int {
    (BLAST_RADIUS * l.radiusT) / BLAST_GROW
  }

  function BlastTick(w: World, j: nat, c: Ctx): (v: World)
    requires j < |w.blasts| && HandsOk(w)
    ensures HandsOk(v) && |v.bombs| == |w.bombs| && |v.blasts| == |w.blasts|
  {
    var l := w.blasts[j];
    if l.ttl == 0 then w
    else
      var g := Grown(l);
      DamageFrom(w.(blasts := w.blasts[j := g], bombs := ChainFrom(w.bombs, g.center, Radius(g), 0)),
                 g.center, Radius(g), c.n, 0)
  }

  function BlastsFrom(w: World, j: nat, c: Ctx): (v: World)
    requires HandsOk(w)
    ensures HandsOk(v) && |v.bombs| == |w.bombs| && |v.blasts| == |w.blasts|
    decreases |w.blasts| - j
  {
    if j >= |w.blasts| then w else BlastsFrom(BlastTick(w, j, c), j + 1, c)
  }

  // ------------------------------------------------------------------ phases

  /** round_reset for one player. */
  function ResetPlayer(p: Player, i: Slot, arena: ArenaId, n: u8): Player {
    var q := NO_PLAYER.(stocks := p.stocks);
    if i >= n then q.(state := Dead)
    else
      var pos := Spawn(arena, i);
      q.(pos := pos, hp := START_HP, yaw := Atan2(-pos.x, -pos.z))
  }

  function ResetWorld(ps: Quad<Player>, arena: ArenaId, n: u8): World {
    World(Quad(ResetPlayer(ps.x0, 0, arena, n), ResetPlayer(ps.x1, 1, arena, n),
               ResetPlayer(ps.x2, 2, arena, n), ResetPlayer(ps.x3, 3, arena, n)),
          seq(MAX_BOMBS, _ => NO_BOMB), seq(MAX_BLASTS, _ => NO_BLAST))
  }

  predicate MatchOver(s: State) {
    exists i: Slot :: i < s.numPlayers && s.world.players.At(i).stocks >= ROUNDS_TO_WIN
  }

  /** Stage 1. */
  function PhaseStep(s: State): (t: State)
    ensures StateOk(s) ==> StateOk(t)
  {
    match s.phase
    case Countdown =>
      var t: u16 := if s.phaseTimer > 0 then s.phaseTimer - 1 else 0;
      s.(phaseTimer := t, phase := if t == 0 then Play else Countdown)
    case Play =>
      var t: u16 := (s.phaseTimer + 1) % 0x1_0000;
      if t >= ROUND_TICKS then s.(phaseTimer := t, phase := SuddenDeath, shrink := 0) else s.(phaseTimer := t)
    case SuddenDeath =>
      var t: u16 := (s.phaseTimer + 1) % 0x1_0000;
      s.(phaseTimer := t, shrink := if t % 60 == 0 && s.shrink < SHRINK_MAX then s.shrink + 1 else s.shrink)
    case RoundEnd =>
      var t: u16 := if s.phaseTimer > 0 then s.phaseTimer - 1 else 0;
      if t == 0 && !MatchOver(s) then
        s.(world := ResetWorld(s.world.players, s.arena, s.numPlayers), shrink := 0,
           phase := Countdown, phaseTimer := COUNTDOWN_TICKS)
      else s.(phaseTimer := t)
  }

  predicate InPlay(phase: Phase) {
    phase == Play || phase == SuddenDeath
  }

  function CtxOf(s: State): Ctx {
    var shrink := if s.phase == SuddenDeath then s.shrink * SHRINK_STEP else 0;
    var half := HalfWidth(s.arena) - shrink;
    Ctx(InPlay(s.phase), half, half, s.arena, s.numPlayers)
  }

  /** A player's turn keeps the table's size and the hands inside it. */
  lemma {:induction false} FanLength(p: Player, i: Slot, bs: seq<Bomb>, extras: nat, k: nat)
    ensures var r := FanFrom(p, i, bs, extras, k); |r.1| == |bs| && r.0.held == p.held
    decreases extras + 1 - k
  {
    hide Thrown, FanDir;
    if k <= extras && FreeBombFrom(bs, 0).Some? {
      var j := FreeBombFrom(bs, 0).value;
      var b := Thrown(p, NO_BOMB.(owner := i), FanDir(p, extras, k), SPREAD_SPEED, SPREAD_UP);
      FanLength(p.(live := (p.live + 1) % 0x100), i, bs[j := b], extras, k + 1);
    }
  }

  lemma TickLength(p: Player, i: Slot, bs: seq<Bomb>, in': u16, c: Ctx)
    requires p.held <= |bs| <= 0xFF
    ensures var r := PlayerTick(p, i, bs, in', c); |r.1| == |bs| && r.0.held <= |bs|
  {
    hide Thrown, FanFrom, Extras, FanDir, Steer, Leap, Fly, Laid;
    if p.state != Dead {
      var r1 := Leap(Steer(p, in', c), in', c);
      SteerHands(p, in', c);
      if 1 <= r1.held {
        var extras := Extras(r1, bs);
        ExtrasNat(r1, bs);
        var b := Thrown(r1, bs[r1.held - 1], FanDir(r1, extras, 0), SPREAD_SPEED, SPREAD_UP);
        FanLength(r1, i, bs[r1.held - 1 := b], extras, 1);
      }
      var (r2, bs2) := Hands(r1, i, bs, in', c);
      var r3 := Lay(r2, i, bs2, in', c).0;
      BodyHands(r3, c);
    }
  }

  lemma ExtrasNat(p: Player, bs: seq<Bomb>)
    ensures 0 <= Extras(p, bs) <= 3
  {
  }

  lemma SteerHands(p: Player, in': u16, c: Ctx)
    ensures Leap(Steer(p, in', c), in', c).held == p.held
  {
    hide Steering, Heading, Approach, Tilt;
  }

  lemma BodyHands(p: Player, c: Ctx)
    ensures Upkeep(Fly(p, c)).held == p.held
  {
    hide Collide, Skid;
  }

  /** Stage 2 from player i on. */
  function PlayersFrom(ps: Quad<Player>, bs: seq<Bomb>, inputs: Quad<u16>, i: nat, c: Ctx)
    : (r: (Quad<Player>, seq<Bomb>))
    requires |bs| <= 0xFF && forall j: Slot :: ps.At(j).held <= |bs|
    ensures |r.1| == |bs| && forall j: Slot :: r.0.At(j).held <= |bs|
    decreases 4 - i
  {
    if i >= 4 then (ps, bs)
    else
      TickLength(ps.At(i), i, bs, inputs.At(i), c);
      var (p, cs) := PlayerTick(ps.At(i), i, bs, inputs.At(i), c);
      PlayersFrom(ps.With(i, p), cs, inputs, i + 1, c)
  }

  // ------------------------------------------------------------------ rounds

  function AliveFrom(ps: Quad<Player>, n: u8, i: nat): nat
    decreases 4 - i
  {
    if i >= 4 || i >= n then 0 else (if ps.At(i).state != Dead then 1 else 0) + AliveFrom(ps, n, i + 1)
  }

  /** The highest slot still alive, if any. */
  function LastAlive(ps: Quad<Player>, n: u8, i: nat): (r: Option<Slot>)
    decreases 4 - i
  {
    if i >= 4 || i >= n then None
    else
      match LastAlive(ps, n, i + 1)
      case Some(k) => Some(k)
      case None => if ps.At(i).state != Dead then Some(i) else None
  }

  /** Stage 6. */
  function Judge(s: State): (t: State)
    ensures StateOk(s) ==> StateOk(t)
  {
    var ps := s.world.players;
    if !InPlay(s.phase) || AliveFrom(ps, s.numPlayers, 0) > 1 then s
    else
      var won := match LastAlive(ps, s.numPlayers, 0)
                 case None => ps
                 case Some(k) => ps.With(k, ps.At(k).(stocks := (ps.At(k).stocks + 1) % 0x100));
      s.(world := s.world.(players := won), phase := RoundEnd, phaseTimer := ROUND_END_TICKS)
  }

  /** Stages 2 to 5 on the tables. */
  function WorldStep(w: World, inputs: Quad<u16>, c: Ctx): (v: World)
    requires Sized(w) && HandsOk(w)
    ensures Sized(v) && HandsOk(v)
  {
    var (ps, bs) := PlayersFrom(w.players, w.bombs, inputs, 0, c);
    var pushed := World(PushFrom(ps, 0, 1), bs, w.blasts);
    BlastsFrom(DetonateFrom(BombsFrom(pushed, 0, c), 0), 0, c)
  }

  predicate StateOk(s: State) {
    Sized(s.world) && HandsOk(s.world)
  }

  /** arena_tick. */
  function Tick(s: State, inputs: Quad<u16>): (t: State)
    requires StateOk(s)
    ensures StateOk(t)
  {
    var s1 := PhaseStep(s);
    var s2 := Judge(s1.(world := WorldStep(s1.world, inputs, CtxOf(s1))));
    s2.(tick := (s2.tick + 1) % TWO32)
  }

  /** arena_init. */
  function Init(arena: ArenaId, n: u8, seed: bv32): (s: State)
    ensures StateOk(s)
  {
    State(0, if seed == 0 then 1 else seed, 0, Countdown, COUNTDOWN_TICKS, arena, n, 0,
          ResetWorld(Same(NO_PLAYER), arena, n))
  }

  /** A run: one tick per entry. */
  function After(s: State, inputs: seq<Quad<u16>>): (t: State)
    requires StateOk(s)
    ensures StateOk(t)
    decreases |inputs|
  {
    if inputs == [] then s else After(Tick(s, inputs[0]), inputs[1..])
  }
}
