// Positions on map 0 over every run: a fixed box around the walls holds every
// player, bomb and blast.

module ArenaBox {
  import opened Basics
  import opened ArenaMath
  import opened ArenaTypes
  import opened ArenaSim
  import opened ArenaFrames
  import opened ArenaOwn
  import opened ArenaBounds

  /** Within the walls; three player pushouts and sixteen bomb pushouts beyond. */
  const INNER := 30993
  const REACH := 51676
  /** One more bomb step beyond the players. */
  const OUTER := 53000

  predicate Within(v: Vec, r: int) {
    -r <= v.x <= r && -r <= v.z <= r
  }

  /** Map 0 with its walls at most half shrunk. */
  predicate WallsOk(c: Ctx) {
    c.arena == 0 && c.wx == c.wz && 20714 <= c.wx <= 32426
  }

  // ----------------------------------------------------------------- players

  lemma WallRange(x: int, v: int, l: int)
    requires l >= 0
    ensures -l <= Wall(x, v, l).0 <= l
  {
  }

  lemma CollideRange(pos: Vec, vel: Vec, r: int, c: Ctx)
    requires WallsOk(c) && 0 <= r <= 1433
    ensures Within(Collide(pos, vel, r, c).0, c.wx - r)
  {
    WallRange(pos.x, vel.x, c.wx - r);
    WallRange(pos.z, vel.z, c.wz - r);
  }

  lemma UpkeepPlace(p: Player)
    ensures Upkeep(p).pos == p.pos
  {
    hide Skid, OnGround, Len2;
  }

  /** After its turn a live player is inside the walls. */
  lemma TurnWithin(p: Player, i: Slot, bs: seq<Bomb>, in': u16, c: Ctx)
    requires WallsOk(c) && p.held <= |bs| <= 0xFF && Within(p.pos, REACH)
    ensures var q := PlayerTick(p, i, bs, in', c).0; Within(q.pos, if q.state == Dead then REACH else INNER)
  {
    hide Steer, Leap, Hands, Lay, Collide, Upkeep, WallsOk;
    TickLength(p, i, bs, in', c);
    if p.state == Dead {
      WaitWithin(p, i, in', c);
    } else {
      var r1 := Leap(Steer(p, in', c), in', c);
      SteerHands(p, in', c);
      var (r2, bs2) := Hands(r1, i, bs, in', c);
      var r3 := Lay(r2, i, bs2, in', c).0;
      var vy := Max(r3.vel.y - GRAVITY, TERMINAL_VY);
      CollideRange(Vec(r3.pos.x + r3.vel.x, r3.pos.y + vy, r3.pos.z + r3.vel.z), r3.vel.(y := vy), PLAYER_RADIUS, c);
      WallsInner(c);
      UpkeepPlace(Fly(r3, c));
      BodyControl(r3, c);
    }
  }

  lemma WallsInner(c: Ctx)
    requires WallsOk(c)
    ensures c.wx - PLAYER_RADIUS <= INNER && c.arena == 0
  {
  }

  lemma WaitWithin(p: Player, i: Slot, in': u16, c: Ctx)
    requires WallsOk(c) && p.state == Dead && Within(p.pos, REACH)
    ensures var q := Wait(p, i, in', c); Within(q.pos, if q.state == Dead then REACH else INNER)
  {
    hide Atan2;
  }

  predicate AllWithin(ps: Quad<Player>, r: int) {
    forall i: Slot :: Within(ps.At(i).pos, if ps.At(i).state == Dead then REACH else r)
  }

  /** Each slot has its own bound. */
  predicate Bounded(ps: Quad<Player>, r: Quad<int>) {
    forall i: Slot :: Within(ps.At(i).pos, if ps.At(i).state == Dead then REACH else r.At(i))
  }

  lemma PushRange(u: int, push: int)
    requires -ONE <= u <= ONE && 0 <= push <= PLAYER_RADIUS
    ensures -PLAYER_RADIUS <= Mul(u, push) <= PLAYER_RADIUS
  {
    ScaleBound(u, push);
  }

  /** q is p moved by at most m in each direction of the plane. */
  predicate Moved(p: Player, q: Player, m: int) {
    q.state == p.state && p.pos.x - m <= q.pos.x <= p.pos.x + m && p.pos.z - m <= q.pos.z <= p.pos.z + m
  }

  lemma PairMoves(ps: Quad<Player>, a: Slot, b: Slot)
    requires a != b
    ensures var qs := PushPair(ps, a, b);
      && (forall k: Slot :: k != a && k != b ==> qs.At(k) == ps.At(k))
      && Moved(ps.At(a), qs.At(a), PLAYER_RADIUS) && Moved(ps.At(b), qs.At(b), PLAYER_RADIUS)
  {
    var pa, pb := ps.At(a), ps.At(b);
    var dx, dz := pb.pos.x - pa.pos.x, pb.pos.z - pa.pos.z;
    var d := Len2(dx, dz);
    hide Len2, Mul, Div, Quad.At, Quad.With, Abs;
    LegBound(dx, dz);
    if d > 0 {
      UnitBound(dx, d);
      UnitBound(dz, d);
    }
    if d < 2 * PLAYER_RADIUS {
      PushRange(if d > 0 then Div(dx, d) else ONE, (2 * PLAYER_RADIUS - d) / 2);
      PushRange(if d > 0 then Div(dz, d) else 0, (2 * PLAYER_RADIUS - d) / 2);
    }
  }

  /** A pushout moves two players by at most one radius. */
  lemma PairReach(ps: Quad<Player>, a: Slot, b: Slot, r: Quad<int>)
    requires Bounded(ps, r) && a != b
    ensures Bounded(PushPair(ps, a, b), r.With(a, r.At(a) + PLAYER_RADIUS).With(b, r.At(b) + PLAYER_RADIUS))
  {
    hide PushPair, Quad.At, Quad.With;
    PairMoves(ps, a, b);
    PairDead(ps, a, b);
  }

  /** The dead are not pushed. */
  lemma PairDead(ps: Quad<Player>, a: Slot, b: Slot)
    ensures forall k: Slot :: ps.At(k).state == Dead ==> PushPair(ps, a, b).At(k) == ps.At(k)
  {
    hide Len2, Mul, Div, Quad.At, Quad.With;
  }

  lemma PushReach(ps: Quad<Player>)
    requires AllWithin(ps, INNER)
    ensures AllWithin(PushFrom(ps, 0, 1), INNER + 3 * PLAYER_RADIUS)
  {
    var k := PLAYER_RADIUS;
    var r0 := Quad(INNER, INNER, INNER, INNER);
    BoundedIs(ps, INNER);
    hide PushPair, Bounded, AllWithin;
    PairReach(ps, 0, 1, r0);
    var p1, r1 := PushPair(ps, 0, 1), Quad(INNER + k, INNER + k, INNER, INNER);
    PairReach(p1, 0, 2, r1);
    var p2, r2 := PushPair(p1, 0, 2), Quad(INNER + 2 * k, INNER + k, INNER + k, INNER);
    PairReach(p2, 0, 3, r2);
    var p3, r3 := PushPair(p2, 0, 3), Quad(INNER + 3 * k, INNER + k, INNER + k, INNER + k);
    PairReach(p3, 1, 2, r3);
    var p4, r4 := PushPair(p3, 1, 2), Quad(INNER + 3 * k, INNER + 2 * k, INNER + 2 * k, INNER + k);
    PairReach(p4, 1, 3, r4);
    var p5, r5 := PushPair(p4, 1, 3), Quad(INNER + 3 * k, INNER + 3 * k, INNER + 2 * k, INNER + 2 * k);
    PairReach(p5, 2, 3, r5);
    var p6 := PushPair(p5, 2, 3);
    SixPairs(ps, p1, p2, p3, p4, p5, p6);
    BoundedIs(p6, INNER + 3 * k);
  }

  /** The fixed pair order. */
  lemma SixPairs(ps: Quad<Player>, p1: Quad<Player>, p2: Quad<Player>, p3: Quad<Player>, p4: Quad<Player>,
                 p5: Quad<Player>, p6: Quad<Player>)
    requires p1 == PushPair(ps, 0, 1) && p2 == PushPair(p1, 0, 2) && p3 == PushPair(p2, 0, 3)
    requires p4 == PushPair(p3, 1, 2) && p5 == PushPair(p4, 1, 3) && p6 == PushPair(p5, 2, 3)
    ensures PushFrom(ps, 0, 1) == p6
  {
    hide PushPair, KeepsHands;
    assert PushFrom(p6, 2, 4) == p6 by { assert PushFrom(p6, 3, 4) == PushFrom(p6, 4, 5) == p6; }
    assert PushFrom(p3, 1, 2) == PushFrom(p5, 1, 4) == PushFrom(p5, 2, 3) == p6;
    assert PushFrom(ps, 0, 1) == PushFrom(p1, 0, 2) == PushFrom(p2, 0, 3) == PushFrom(p3, 0, 4) == PushFrom(p3, 1, 2);
  }

  lemma BoundedIs(ps: Quad<Player>, r: int)
    ensures Bounded(ps, Quad(r, r, r, r)) <==> AllWithin(ps, r)
  {
  }

  lemma {:induction false} PlayersWithin(ps: Quad<Player>, bs: seq<Bomb>, inputs: Quad<u16>, i: nat, c: Ctx)
    requires |bs| <= 0xFF && (forall j: Slot :: ps.At(j).held <= |bs|) && WallsOk(c)
    requires forall j: Slot :: Within(ps.At(j).pos, if j < i && ps.At(j).state != Dead then INNER else REACH)
    ensures AllWithin(PlayersFrom(ps, bs, inputs, i, c).0, INNER)
    decreases 4 - i
  {
    hide PlayerTick, Quad.At, Within, WallsOk;
    if i < 4 {
      TickLength(ps.At(i), i, bs, inputs.At(i), c);
      TurnWithin(ps.At(i), i, bs, inputs.At(i), c);
      var (p, cs) := PlayerTick(ps.At(i), i, bs, inputs.At(i), c);
      PlayersWithin(ps.With(i, p), cs, inputs, i + 1, c);
    }
  }

  /** One settled bomb moves a player by at most the stand gap. */
  lemma StandReach(pos: Vec, b: Vec, r: int)
    requires Within(pos, r)
    ensures Within(StandOff(pos, b), r + BOMB_STAND_GAP)
  {
    hide Len2, Mul, Div, Abs;
    var dx, dz := pos.x - b.x, pos.z - b.z;
    var d := Len2(dx, dz);
    LegBound(dx, dz);
    if 0 < d < BOMB_STAND_GAP {
      UnitBound(dx, d);
      UnitBound(dz, d);
      ScaleBound(Div(dx, d), BOMB_STAND_GAP - d);
      ScaleBound(Div(dz, d), BOMB_STAND_GAP - d);
    }
  }

  lemma {:induction false} StandScanReach(b: Bomb, ps: Quad<Player>, n: u8, pj: nat, r: int)
    requires r >= 0
    requires forall i: Slot ::
      Within(ps.At(i).pos, if ps.At(i).state == Dead then REACH else if i < pj then r + BOMB_STAND_GAP else r)
    ensures AllWithin(StandScan(b, ps, n, pj), r + BOMB_STAND_GAP)
    decreases 4 - pj
  {
    hide StandOff, OnGround, Quad.At;
    if pj < 4 && pj < n {
      var p := ps.At(pj);
      if p.state == Dead || b.bounced == pj + 1 || !OnGround(p) {
        StandScanReach(b, ps, n, pj + 1, r);
      } else {
        StandReach(p.pos, b.pos, r);
        StandScanReach(b, ps.With(pj, p.(pos := StandOff(p.pos, b.pos))), n, pj + 1, r);
      }
    }
  }

  lemma AllWithinMore(ps: Quad<Player>, r: int, s: int)
    requires AllWithin(ps, r) && r <= s
    ensures AllWithin(ps, s)
  {
    hide Quad.At;
  }

  lemma BombReach(w: World, i: nat, c: Ctx, r: int)
    requires i < |w.bombs| && r >= 0 && AllWithin(w.players, r)
    ensures AllWithin(BombTick(w, i, c).players, r + BOMB_STAND_GAP)
  {
    hide AllWithin, StandScan, KickScan, FlyBomb, FallBomb, SlideBomb, Burn;
    AllWithinMore(w.players, r, r + BOMB_STAND_GAP);
    if w.bombs[i].state == Settled {
      WithinFrom(w.players, r);
      StandScanReach(KickScan(w.bombs[i], w.players, c.n, 0), w.players, c.n, 0, r);
    }
  }

  lemma WithinFrom(ps: Quad<Player>, r: int)
    requires AllWithin(ps, r)
    ensures forall i: Slot ::
      Within(ps.At(i).pos, if ps.At(i).state == Dead then REACH else if i < 0 then r + BOMB_STAND_GAP else r)
  {
  }

  lemma {:induction false} BombsReach(w: World, i: nat, c: Ctx, r: int)
    requires i <= |w.bombs| && r >= 0 && AllWithin(w.players, r)
    ensures AllWithin(BombsFrom(w, i, c).players, r + BOMB_STAND_GAP * (|w.bombs| - i))
    decreases |w.bombs| - i
  {
    hide AllWithin, BombTick, KeepsHands;
    if i < |w.bombs| {
      BombReach(w, i, c, r);
      BombsReach(BombTick(w, i, c), i + 1, c, r + BOMB_STAND_GAP);
    }
  }

  // ------------------------------------------------------------------- bombs

  const THROW_ENERGY := 2160424

  predicate Roams(b: Bomb) {
    b.state != Free && b.state != Exploding
  }

  /** Where a bomb may be between ticks, and how fast. */
  predicate BombBox(b: Bomb) {
    && Within(b.pos, if Roams(b) then REACH else OUTER)
    && Within(b.vel, THROW_SPEED)
    && -2000 <= b.pos.y <= 16000
    && (b.state == Airborne ==> b.pos.y >= 0 && Energy(b.pos.y, b.vel.y) <= THROW_ENERGY)
    && (b.state == Falling ==>
         b.pos.y >= 0 && b.fuse <= FUSE_TICKS && -BOMB_GRAVITY * (FUSE_TICKS - b.fuse) <= b.vel.y <= 0)
  }

  predicate BombsBox(bs: seq<Bomb>) {
    forall j :: 0 <= j < |bs| ==> BombBox(bs[j])
  }

  lemma KineticBelow(v: int, a: int)
    requires 0 <= a && v <= -a
    ensures Kinetic(v) >= a * (a + 71)
  {
    Monotone(a, -v, 71 - v);
    Monotone(a + 71, 71 - v, a);
    assert Kinetic(v) == (71 - v) * (-v);
  }

  lemma KineticAbove(v: int, a: int)
    requires 71 <= a <= v
    ensures Kinetic(v) >= a * (a - 71)
  {
    Monotone(a, v, v - 71);
    Monotone(a - 71, v - 71, a);
    assert Kinetic(v) == (v - 71) * v;
  }

  lemma AirSpeed(y: int, v: int)
    requires y >= 0 && Energy(y, v) <= THROW_ENERGY
    ensures -1434 <= v <= 1505 && y <= 15223
  {
    hide Kinetic;
    SpeedTerm(v);
    if v <= -1435 {
      KineticBelow(v, 1435);
    }
    if v >= 1506 {
      KineticAbove(v, 1506);
    }
  }

  lemma DirVel(dir: u16, s: int)
    requires 0 <= s <= THROW_SPEED
    ensures -THROW_SPEED <= Mul(Sin(dir), s) <= THROW_SPEED && -THROW_SPEED <= -Mul(Cos(dir), s) <= THROW_SPEED
  {
    DirectionBound(dir);
    ScaleBound(Sin(dir), s);
    ScaleBound(Cos(dir), s);
    hide Mul, Sin, Cos, Sq;
  }

  lemma ThrowEnergy(y: int)
    requires 0 <= y <= 9666
    ensures Energy(y + PLAYER_HEIGHT, THROW_UP) <= THROW_ENERGY && Energy(y + PLAYER_HEIGHT, SPREAD_UP) <= THROW_ENERGY
  {
  }

  lemma ThrownBox(p: Player, b: Bomb, dir: u16, fwd: int, up: int)
    requires Within(p.pos, REACH) && BodyOk(p) && 0 <= fwd <= THROW_SPEED && (up == THROW_UP || up == SPREAD_UP)
    ensures BombBox(Thrown(p, b, dir, fwd, up))
  {
    HeightBound(p);
    ThrowEnergy(p.pos.y);
    DirVel(dir, fwd);
    hide Mul, Sin, Cos, Energy;
  }

  lemma InWallsBox(pos: Vec, c: Ctx)
    requires WallsOk(c)
    ensures Within(InWalls(pos, c), REACH) && InWalls(pos, c).y == pos.y
  {
  }

  lemma LaidBox(p: Player, i: Slot, c: Ctx)
    requires WallsOk(c) && BodyOk(p)
    ensures BombBox(Laid(p, i, c))
  {
    HeightBound(p);
    var reach := if p.pos.y > 0 then HAND_FWD else SET_OFFSET;
    var pos := Vec(p.pos.x + Mul(Sin(p.yaw), reach), if p.pos.y > 0 then p.pos.y + HAND_Y else 0,
                   p.pos.z - Mul(Cos(p.yaw), reach));
    InWallsBox(pos, c);
    hide Mul, Sin, Cos, InWalls, Energy;
  }

  lemma CollideVel(pos: Vec, vel: Vec, r: int, c: Ctx)
    ensures var v := Collide(pos, vel, r, c).1; (v.x == vel.x || v.x == 0) && (v.z == vel.z || v.z == 0)
  {
    hide PillarsFrom;
  }

  /** One tick of a thrown bomb's flight, in numbers. */
  lemma AirStep(y: int, v: int)
    requires y >= 0 && Energy(y, v) <= THROW_ENERGY
    ensures var y1, v1 := y + (v - GRAVITY), v - GRAVITY;
      Energy(y1, v1) == Energy(y, v) && -2000 <= y1 <= 16000
  {
    hide Kinetic;
    FlightConserves(y, v);
    AirSpeed(y, v);
    if y + (v - GRAVITY) >= 0 {
      AirSpeed(y + (v - GRAVITY), v - GRAVITY);
    }
  }

  /** A flight ends where it went, or pushed back by floor and walls. */
  lemma FlyEnds(b: Bomb, i: nat, w: World, c: Ctx)
    requires b.state == Airborne
    ensures var d := FlyBomb(b, i, w, c);
      var vel := b.vel.(y := b.vel.y - GRAVITY);
      var pos := Vec(b.pos.x + vel.x, b.pos.y + vel.y, b.pos.z + vel.z);
      var (q, v) := Collide(pos, vel, BOMB_RADIUS, c);
      && (d.state == Exploding || (d.state == Airborne && d.pos == pos == q && d.vel == vel == v))
      && (d.pos == pos || d.pos == q || d.pos == q.(y := 0)) && (d.vel == vel || d.vel == v)
  {
    hide Collide, HitsPlayer, HitsBomb;
  }

  lemma FlyBox(b: Bomb, i: nat, w: World, c: Ctx)
    requires WallsOk(c) && BombBox(b) && b.state == Airborne
    ensures BombBox(FlyBomb(b, i, w, c))
  {
    hide Collide, FlyBomb, Energy;
    AirStep(b.pos.y, b.vel.y);
    FlyEnds(b, i, w, c);
    var vel := b.vel.(y := b.vel.y - GRAVITY);
    var pos := Vec(b.pos.x + vel.x, b.pos.y + vel.y, b.pos.z + vel.z);
    CollideRange(pos, vel, BOMB_RADIUS, c);
    CollideHeight(pos, vel, BOMB_RADIUS, c);
    CollideVel(pos, vel, BOMB_RADIUS, c);
  }

  lemma FallBox(b: Bomb, ps: Quad<Player>, c: Ctx)
    requires WallsOk(c) && BombBox(b) && b.state == Falling && AllBodiesOk(ps)
    ensures BombBox(FallBomb(b, ps, c))
  {
    var op := ps.At(b.owner);
    assert BodyOk(op);
    HeightBound(op);
    var pos := Vec(op.pos.x + Mul(Sin(op.yaw), HAND_FWD), op.pos.y + HAND_Y, op.pos.z - Mul(Cos(op.yaw), HAND_FWD));
    InWallsBox(pos, c);
    hide Mul, Sin, Cos, InWalls, Energy, BodyOk, AllBodiesOk, Quad.At;
  }

  lemma SlideScanIs(b: Bomb, ps: Quad<Player>, n: u8)
    requires b.state == Sliding
    ensures var d := SlideScan(b, ps, n, 0);
      d.pos == b.pos && d.vel == b.vel && (d.state == Sliding || d.state == Exploding)
  {
    SlideScanStep(b, ps, n, 0);
  }

  /** A slide ends where it went, or pushed back by the walls. */
  lemma SlideEnds(b: Bomb, i: nat, w: World, c: Ctx)
    requires b.state == Sliding
    ensures var d := SlideBomb(b, i, w, c);
      var pos := b.pos.(x := b.pos.x + b.vel.x, z := b.pos.z + b.vel.z);
      var (q, v) := Collide(pos, b.vel, BOMB_RADIUS, c);
      && (d.state == Exploding || d.state == Sliding)
      && ((d.state == Exploding && d.pos == pos && d.vel == b.vel) || (d.pos == q && d.vel == v))
  {
    hide Collide, SlideScan, SlidesIntoBomb;
    SlideScanIs(b.(pos := b.pos.(x := b.pos.x + b.vel.x, z := b.pos.z + b.vel.z)), w.players, c.n);
  }

  lemma SlideBox(b: Bomb, i: nat, w: World, c: Ctx)
    requires WallsOk(c) && BombBox(b) && b.state == Sliding
    ensures BombBox(SlideBomb(b, i, w, c))
  {
    hide Collide, SlideBomb;
    SlideEnds(b, i, w, c);
    var pos := b.pos.(x := b.pos.x + b.vel.x, z := b.pos.z + b.vel.z);
    CollideRange(pos, b.vel, BOMB_RADIUS, c);
    CollideHeight(pos, b.vel, BOMB_RADIUS, c);
    CollideVel(pos, b.vel, BOMB_RADIUS, c);
  }

  lemma {:induction false} KickBox(b: Bomb, ps: Quad<Player>, n: u8, pj: nat)
    requires BombBox(b) && b.state == Settled
    ensures BombBox(KickScan(b, ps, n, pj))
    decreases 4 - pj
  {
    hide Len2, Quad.At, Mul, Sin, Cos;
    if pj < 4 && pj < n {
      KickBox(b, ps, n, pj + 1);
      KickBox(b.(bounced := 0), ps, n, pj + 1);
      DirVel(ps.At(pj).yaw, KICK_SPEED);
    }
  }

  lemma BurnBox(b: Bomb)
    requires BombBox(b) && b.state == Settled
    ensures BombBox(Burn(b))
  {
  }

  /** Stage 4 keeps one bomb in its box, wherever the players have been pushed. */
  lemma BombTickBox(w: World, i: nat, c: Ctx)
    requires i < |w.bombs| && WallsOk(c) && BombBox(w.bombs[i]) && AllBodiesOk(w.players) && AllWithin(w.players, REACH)
    ensures BombBox(BombTick(w, i, c).bombs[i])
  {
    var b := w.bombs[i];
    hide BombBox, KickScan, StandScan, FlyBomb, FallBomb, SlideBomb, Burn, KeepsHands, AllBodiesOk, AllWithin, WallsOk;
    match b.state {
      case Held => HeldBox(b, w.players);
      case Airborne => FlyBox(b, i, w, c);
      case Falling => FallBox(b, w.players, c);
      case Sliding => SlideBox(b, i, w, c);
      case Settled =>
        KickBox(b, w.players, c.n, 0);
        var k := KickScan(b, w.players, c.n, 0);
        if k.state == Settled {
          BurnBox(k);
        }
      case _ =>
    }
  }

  lemma HeldBox(b: Bomb, ps: Quad<Player>)
    requires BombBox(b) && b.state == Held && AllBodiesOk(ps) && AllWithin(ps, REACH)
    ensures var p := ps.At(b.owner); BombBox(b.(pos := p.pos.(y := p.pos.y + PLAYER_HEIGHT)))
  {
    var p := ps.At(b.owner);
    assert BodyOk(p) && Within(p.pos, REACH);
    HeightBound(p);
    hide Energy, Quad.At, BodyOk, AllBodiesOk, AllWithin;
  }

  /** Stage 4 as a whole, from players inside `r` with room for the bombs to come. */
  lemma {:induction false} BombsBoxStep(w: World, i: nat, c: Ctx, r: int)
    requires WallsOk(c) && BombsBox(w.bombs) && AllBodiesOk(w.players) && i <= |w.bombs|
    requires r >= 0 && AllWithin(w.players, r) && r + BOMB_STAND_GAP * (|w.bombs| - i) <= REACH
    ensures BombsBox(BombsFrom(w, i, c).bombs)
    decreases |w.bombs| - i
  {
    hide AllWithin, BombTick, KeepsHands, BombBox, AllBodiesOk, WallsOk, BombStep, AllShifted;
    if i < |w.bombs| {
      AllWithinMore(w.players, r, REACH);
      BombTickBox(w, i, c);
      BombTickFrame(w, i, c);
      BombReach(w, i, c, r);
      AllShiftedBody(w.players, BombTick(w, i, c).players);
      BombsBoxStep(BombTick(w, i, c), i + 1, c, r + BOMB_STAND_GAP);
    }
  }

  // ------------------------------------------------------ a player's own bombs

  lemma {:induction false} FanBox(p: Player, i: Slot, bs: seq<Bomb>, extras: nat, k: nat)
    requires BombsBox(bs) && Within(p.pos, REACH) && BodyOk(p)
    ensures BombsBox(FanFrom(p, i, bs, extras, k).1)
    decreases extras + 1 - k
  {
    hide Thrown, FanDir, BombBox, Within, HeightOk, SpeedOk;
    if k <= extras && FreeBombFrom(bs, 0).Some? {
      var j := FreeBombFrom(bs, 0).value;
      var b := Thrown(p, NO_BOMB.(owner := i), FanDir(p, extras, k), SPREAD_SPEED, SPREAD_UP);
      ThrownBox(p, NO_BOMB.(owner := i), FanDir(p, extras, k), SPREAD_SPEED, SPREAD_UP);
      var q := p.(live := (p.live + 1) % 0x100);
      CounterBody(p, q);
      FanBox(q, i, bs[j := b], extras, k + 1);
    }
  }

  lemma HandsBox(p: Player, i: Slot, bs: seq<Bomb>, in': u16, c: Ctx)
    requires BombsBox(bs) && Within(p.pos, REACH) && BodyOk(p) && p.held <= |bs| <= 0xFF
    ensures BombsBox(Hands(p, i, bs, in', c).1)
  {
    hide Thrown, FanDir, BombBox, HeightOk, SpeedOk, FanFrom, Extras, BombBit;
    FreshBox(i);
    if p.held > 0 {
      var h := p.held - 1;
      ThrownBox(p, bs[h], p.yaw, THROW_SPEED, THROW_UP);
      var extras := Extras(p, bs);
      ExtrasNat(p, bs);
      ThrownBox(p, bs[h], FanDir(p, extras, 0), SPREAD_SPEED, SPREAD_UP);
      FanBox(p, i, bs[h := Thrown(p, bs[h], FanDir(p, extras, 0), SPREAD_SPEED, SPREAD_UP)], extras, 1);
    }
  }

  lemma FreshBox(i: Slot)
    ensures BombBox(NO_BOMB.(owner := i, state := Held))
  {
  }

  /** Steering and leaping do not move the body. */
  lemma SteerPlace(p: Player, in': u16, c: Ctx)
    ensures var q := Leap(Steer(p, in', c), in', c); q.pos == p.pos
  {
    hide Steering, Heading, Approach, Tilt, Sin, Cos, Mul;
  }

  /** The bombs a turn throws or lays start inside the box: throwing height is
      bounded by the thrower's, who may have leapt this very tick. */
  lemma TurnBox(p: Player, i: Slot, bs: seq<Bomb>, in': u16, c: Ctx)
    requires BombsBox(bs) && BodyOk(p) && WallsOk(c) && Within(p.pos, REACH) && p.held <= |bs| <= 0xFF
    ensures BombsBox(PlayerTick(p, i, bs, in', c).1)
  {
    hide Steer, Leap, Hands, Lay, Fly, Upkeep, HeightOk, SpeedOk, BombsBox, WallsOk, Within;
    if p.state != Dead {
      var r1 := Leap(Steer(p, in', c), in', c);
      SteerHands(p, in', c);
      SteerPlace(p, in', c);
      GroundBody(p, r1);
      HandsBox(r1.(vel := p.vel, state := p.state), i, bs, in', c);
      SteerControl(p, in', c);
      HandsIgnoreVelocity(r1, p.vel, p.state, i, bs, in', c);
      TickLength(p, i, bs, in', c);
      var (r2, bs2) := Hands(r1, i, bs, in', c);
      HandsStance(r1, i, bs, in', c);
      LayAtPlace(r2, p, i, bs2, in', c);
    }
  }

  lemma GroundBody(p: Player, r: Player)
    requires BodyOk(p) && r.pos == p.pos
    ensures BodyOk(r.(vel := p.vel, state := p.state))
  {
    hide Len2, ArcOk;
  }

  /** What the hands do to the bombs does not depend on the velocity. */
  lemma HandsIgnoreVelocity(p: Player, v: Vec, st: PState, i: Slot, bs: seq<Bomb>, in': u16, c: Ctx)
    requires p.held <= |bs| <= 0xFF && (st == Tumble <==> p.state == Tumble)
    ensures Hands(p, i, bs, in', c).1 == Hands(p.(vel := v, state := st), i, bs, in', c).1
  {
    hide FanFrom, FanAngle, Sin, Cos, Mul, BombBit, Extras;
    var q := p.(vel := v, state := st);
    ExtrasSame(p, q, bs);
    if p.held > 0 {
      var extras := Extras(p, bs);
      ExtrasNat(p, bs);
      var b := Thrown(p, bs[p.held - 1], FanDir(p, extras, 0), SPREAD_SPEED, SPREAD_UP);
      FanIgnoresVelocity(p, v, st, i, bs[p.held - 1 := b], extras, 1);
    }
  }

  lemma ExtrasSame(p: Player, q: Player, bs: seq<Bomb>)
    requires q.live == p.live
    ensures Extras(p, bs) == Extras(q, bs)
  {
  }

  lemma {:induction false} FanIgnoresVelocity(p: Player, v: Vec, st: PState, i: Slot, bs: seq<Bomb>,
                                              extras: nat, k: nat)
    ensures FanFrom(p, i, bs, extras, k).1 == FanFrom(p.(vel := v, state := st), i, bs, extras, k).1
    decreases extras + 1 - k
  {
    hide FanAngle, Sin, Cos, Mul;
    if k <= extras && FreeBombFrom(bs, 0).Some? {
      var j := FreeBombFrom(bs, 0).value;
      var b := Thrown(p, NO_BOMB.(owner := i), FanDir(p, extras, k), SPREAD_SPEED, SPREAD_UP);
      var q := p.(vel := v, state := st);
      assert b == Thrown(q, NO_BOMB.(owner := i), FanDir(p, extras, k), SPREAD_SPEED, SPREAD_UP);
      hide Thrown;
      FanIgnoresVelocity(p.(live := (p.live + 1) % 0x100), v, st, i, bs[j := b], extras, k + 1);
    }
  }

  lemma LayAtPlace(r: Player, p: Player, i: Slot, bs: seq<Bomb>, in': u16, c: Ctx)
    requires BombsBox(bs) && BodyOk(p) && WallsOk(c) && r.pos == p.pos
    ensures BombsBox(Lay(r, i, bs, in', c).1)
  {
    hide BombBox, Lays, BodyOk, WallsOk, Laid;
    GroundBody(p, r);
    LaidBox(r.(vel := p.vel, state := p.state), i, c);
    LaidPlace(r, p.vel, p.state, i, c);
  }

  lemma LaidPlace(r: Player, v: Vec, st: PState, i: Slot, c: Ctx)
    ensures Laid(r, i, c) == Laid(r.(vel := v, state := st), i, c)
  {
    hide InWalls, Sin, Cos, Mul;
  }

  lemma {:induction false} PlayersBox(ps: Quad<Player>, bs: seq<Bomb>, inputs: Quad<u16>, i: nat, c: Ctx)
    requires |bs| <= 0xFF && (forall j: Slot :: ps.At(j).held <= |bs|) && WallsOk(c)
    requires BombsBox(bs) && AllBodiesOk(ps) && AllWithin(ps, REACH)
    ensures BombsBox(PlayersFrom(ps, bs, inputs, i, c).1)
    decreases 4 - i
  {
    hide PlayerTick, Quad.At, Within, WallsOk, BombsBox, BodyOk;
    if i < 4 {
      TickLength(ps.At(i), i, bs, inputs.At(i), c);
      TurnBox(ps.At(i), i, bs, inputs.At(i), c);
      TurnBody(ps.At(i), i, bs, inputs.At(i), c);
      TurnWithin(ps.At(i), i, bs, inputs.At(i), c);
      var (p, cs) := PlayerTick(ps.At(i), i, bs, inputs.At(i), c);
      InnerReach(p.pos);
      PlayersBox(ps.With(i, p), cs, inputs, i + 1, c);
    }
  }

  lemma InnerReach(v: Vec)
    ensures Within(v, INNER) ==> Within(v, REACH)
  {
  }

  // ------------------------------------------------------------------ blasts

  predicate BlastsBox(ls: seq<Blast>) {
    forall j :: 0 <= j < |ls| ==> Within(ls[j].center, OUTER) && -2000 <= ls[j].center.y <= 16000
  }

  predicate FieldBox(w: World) {
    BombsBox(w.bombs) && BlastsBox(w.blasts) && AllWithin(w.players, REACH) && AllBodiesOk(w.players)
  }

  lemma FreedBox(b: Bomb)
    requires BombBox(b)
    ensures BombBox(b.(state := Free)) && BombBox(b.(state := Exploding))
    ensures Within(b.pos, OUTER) && -2000 <= b.pos.y <= 16000
  {
  }

  lemma DetonateBox(w: World, i: nat)
    requires FieldBox(w) && i < |w.bombs|
    ensures FieldBox(Detonate(w, i))
  {
    hide BombBox, FreeBlastFrom, Within, Quad.At, AllBodiesOk;
    FreedBox(w.bombs[i]);
    DetonateOneBody(w, i);
  }

  lemma {:induction false} DetonateAllBox(w: World, i: nat)
    requires FieldBox(w)
    ensures FieldBox(DetonateFrom(w, i))
    decreases |w.bombs| - i
  {
    hide FieldBox, Detonate, KeepsHands;
    if i < |w.bombs| {
      if w.bombs[i].state == Exploding {
        DetonateBox(w, i);
        DetonateAllBox(Detonate(w, i), i + 1);
      } else {
        DetonateAllBox(w, i + 1);
      }
    }
  }

  lemma ChainBox(bs: seq<Bomb>, center: Vec, radius: int)
    requires BombsBox(bs)
    ensures BombsBox(ChainFrom(bs, center, radius, 0))
  {
    hide BombBox, ChainFrom, Len3;
    var cs := ChainFrom(bs, center, radius, 0);
    forall j | 0 <= j < |bs| ensures BombBox(cs[j]) {
      FreedBox(bs[j]);
    }
  }

  lemma DroppedBox(b: Bomb, p: Player, i: Slot)
    requires Within(p.pos, REACH)
    ensures BombBox(Dropped(b, p, i))
  {
  }

  lemma DamageBox(w: World, center: Vec, radius: int, i: Slot)
    requires FieldBox(w) && w.players.At(i).held <= |w.bombs|
    ensures FieldBox(Damage(w, center, radius, i))
  {
    hide BombBox, Exposed, InReach, Struck, Quad.At, BlastsBox, AllBodiesOk, Dropped;
    DamageBody(w, center, radius, i);
    var p := w.players.At(i);
    StruckPlace(p, center);
    if Exposed(p) {
      ExposedAlive(p);
      if p.held > 0 {
        DroppedBox(w.bombs[p.held - 1], p, i);
      }
    }
  }

  lemma ExposedAlive(p: Player)
    requires Exposed(p)
    ensures p.state != Dead
  {
  }

  lemma StruckPlace(p: Player, center: Vec)
    ensures Struck(p, center).pos == p.pos
  {
    hide Len2, Div, Mul;
  }

  lemma {:induction false} DamageAllBox(w: World, center: Vec, radius: int, n: u8, i: nat)
    requires FieldBox(w) && HandsOk(w)
    ensures FieldBox(DamageFrom(w, center, radius, n, i))
    decreases 4 - i
  {
    hide FieldBox, Damage;
    if i < 4 && i < n {
      DamageBox(w, center, radius, i);
      DamageHands(w, center, radius, i);
      DamageAllBox(Damage(w, center, radius, i), center, radius, n, i + 1);
    }
  }

  lemma BlastBox(w: World, j: nat, c: Ctx)
    requires FieldBox(w) && HandsOk(w) && j < |w.blasts|
    ensures FieldBox(BlastTick(w, j, c))
  {
    hide BombsBox, Within, DamageFrom, ChainFrom, Radius, AllBodiesOk, AllWithin;
    var l := w.blasts[j];
    if l.ttl != 0 {
      var g := Grown(l);
      ChainBox(w.bombs, g.center, Radius(g));
      var m := w.(blasts := w.blasts[j := g], bombs := ChainFrom(w.bombs, g.center, Radius(g), 0));
      DamageAllBox(m, g.center, Radius(g), c.n, 0);
    }
  }

  lemma {:induction false} BlastsBoxStep(w: World, j: nat, c: Ctx)
    requires FieldBox(w) && HandsOk(w)
    ensures FieldBox(BlastsFrom(w, j, c))
    decreases |w.blasts| - j
  {
    hide FieldBox, BlastTick, HandsOk;
    if j < |w.blasts| {
      BlastBox(w, j, c);
      BlastsBoxStep(BlastTick(w, j, c), j + 1, c);
    }
  }

  // ------------------------------------------------------------------ a tick

  lemma WorldBox(w: World, inputs: Quad<u16>, c: Ctx)
    requires Sized(w) && HandsOk(w) && FieldBox(w) && WallsOk(c)
    ensures FieldBox(WorldStep(w, inputs, c))
  {
    hide AllBodiesOk, AllWithin, BombsBox, PlayersFrom, PushFrom, BombsFrom, DetonateFrom, BlastsFrom, AllShifted,
      BombStep, BlastsBox, WallsOk;
    PlayersBox(w.players, w.bombs, inputs, 0, c);
    PlayersBody(w.players, w.bombs, inputs, 0, c);
    WithinReach(w.players);
    PlayersWithin(w.players, w.bombs, inputs, 0, c);
    var (ps, bs) := PlayersFrom(w.players, w.bombs, inputs, 0, c);
    PushReach(ps);
    PushShifts(ps, 0, 1);
    AllShiftedBody(ps, PushFrom(ps, 0, 1));
    var m := World(PushFrom(ps, 0, 1), bs, w.blasts);
    var r := INNER + 3 * PLAYER_RADIUS;
    BombsBoxStep(m, 0, c, r);
    BombsReach(m, 0, c, r);
    BombsFrame(m, 0, c);
    var n := BombsFrom(m, 0, c);
    AllWithinMore(n.players, r + BOMB_STAND_GAP * 16, REACH);
    AllShiftedBody(m.players, n.players);
    DetonateAllBox(n, 0);
    BlastsBoxStep(DetonateFrom(n, 0), 0, c);
  }

  lemma WithinReach(ps: Quad<Player>)
    requires AllWithin(ps, REACH)
    ensures forall j: Slot :: Within(ps.At(j).pos, if j < 0 && ps.At(j).state != Dead then INNER else REACH)
  {
    hide Within, Quad.At;
  }

  lemma ResetBox(ps: Quad<Player>, n: u8)
    ensures FieldBox(ResetWorld(ps, 0, n))
  {
    ResetBody(ps, 0, n);
    hide Atan2, AllBodiesOk;
  }

  /** The invariant of map 0. */
  predicate BoxInv(s: State) {
    && s.arena == 0 && s.shrink <= SHRINK_MAX && StateOk(s) && FieldBox(s.world)
  }

  lemma PhaseBox(s: State)
    requires BoxInv(s)
    ensures BoxInv(PhaseStep(s)) && WallsOk(CtxOf(PhaseStep(s)))
  {
    ResetBox(s.world.players, s.numPlayers);
    hide FieldBox, ResetWorld, StateOk;
  }

  lemma JudgeBox(s: State)
    requires BoxInv(s)
    ensures BoxInv(Judge(s))
  {
    JudgeBody(s);
    hide Within, Quad.At, AliveFrom, LastAlive, AllBodiesOk, BombsBox, BlastsBox;
    assert StateOk(Judge(s));
  }

  /** Every tick on map 0 keeps every player, bomb and blast in the box, for every
      input, and the walls never cross. */
  lemma TickBox(s: State, inputs: Quad<u16>)
    requires BoxInv(s)
    ensures BoxInv(Tick(s, inputs)) && WallsOk(CtxOf(PhaseStep(s)))
  {
    hide FieldBox, WorldStep, PhaseStep, Judge, HandsOk, WallsOk;
    PhaseBox(s);
    var s1 := PhaseStep(s);
    WorldBox(s1.world, inputs, CtxOf(s1));
    JudgeBox(s1.(world := WorldStep(s1.world, inputs, CtxOf(s1))));
  }

  lemma InitBox(n: u8, seed: bv32)
    ensures BoxInv(Init(0, n, seed))
  {
    ResetBox(Same(NO_PLAYER), n);
    hide FieldBox, ResetWorld;
  }

  predicate InBox(v: Vec) {
    Within(v, OUTER) && -2000 <= v.y <= 16000
  }

  /** Every point a reachable state stores is in the box, and no bomb is faster than it
      was thrown or has had time to fall. */
  lemma StoredInBox(s: State, i: Slot, j: nat, k: nat)
    requires BoxInv(s) && j < MAX_BOMBS && k < MAX_BLASTS
    ensures InBox(s.world.players.At(i).pos) && InBox(s.world.bombs[j].pos) && InBox(s.world.blasts[k].center)
    ensures 0 <= s.world.players.At(i).pos.y <= 9666
    ensures BombSpeed(s.world.bombs[j])
  {
    hide Quad.At, Kinetic, SpeedOk;
    var w := s.world;
    assert BodyOk(w.players.At(i));
    HeightBound(w.players.At(i));
    assert BombBox(w.bombs[j]);
    if w.bombs[j].state == Airborne {
      AirSpeed(w.bombs[j].pos.y, w.bombs[j].vel.y);
    }
  }

  predicate BombSpeed(b: Bomb) {
    && Within(b.vel, THROW_SPEED)
    && (b.state == Airborne ==> -1434 <= b.vel.y <= 1505)
    && (b.state == Falling ==> -BOMB_GRAVITY * FUSE_TICKS <= b.vel.y <= 0)
  }
}
