// Numeric bounds over every run: heights, speeds and positions of players.

module ArenaBounds {
  import opened Basics
  import opened ArenaMath
  import opened ArenaTypes
  import opened ArenaSim
  import opened ArenaFrames

  // ------------------------------------------------------------------ energy

  /** What a free flight under GRAVITY conserves exactly, tick by tick. */
  function Energy(y: int, v: int): int {
    142 * y + Kinetic(v)
  }

  function Kinetic(v: int): int {
    v * v - 71 * v
  }

  const JUMP_ENERGY := 1231950
  const HIT_ENERGY := 1371370

  lemma FlightConserves(y: int, v: int)
    ensures Energy(y + (v - GRAVITY), v - GRAVITY) == Energy(y, v)
  {
    assert (v - 71) * (v - 71) == v * v - 142 * v + 5041;
    assert Kinetic(v - GRAVITY) == Kinetic(v) - 142 * v + 10082;
  }

  lemma SpeedTerm(v: int)
    ensures Kinetic(v) >= -1260
    ensures Kinetic(v) <= HIT_ENERGY ==> -1136 <= v <= 1207
    ensures v == JUMP_IMPULSE ==> Kinetic(v) == JUMP_ENERGY
    ensures v == KNOCKBACK_UP ==> Kinetic(v) == 138242
    ensures v == 0 ==> Kinetic(v) == 0
  {
    assert v * v - 71 * v == v * (v - 71);
    if v >= 71 {
      Monotone(0, v - 71, v);
    } else if v <= 0 {
      Monotone(0, 71 - v, -v);
      assert v * (v - 71) == -v * (71 - v);
    } else {
      Valley(v);
    }
    if v <= -1137 {
      Monotone(1137, -v, 71 - v);
      Monotone(1208, 71 - v, 1137);
      assert v * (v - 71) == (71 - v) * (-v);
    }
    if v >= 1208 {
      Monotone(1208, v, v - 71);
      Monotone(1137, v - 71, 1208);
    }
  }

  lemma Valley(v: int)
    requires 0 < v < 71
    ensures v * (v - 71) >= -1260
  {
    var d := 2 * v - 71;
    assert d * d == 4 * (v * (v - 71)) + 5041;
    assert d * d >= 1 by { OddSquare(d); }
  }

  lemma OddSquare(d: int)
    requires d % 2 == 1
    ensures d * d >= 1
  {
    if d > 0 {
      Monotone(1, d, d);
    } else {
      Monotone(1, -d, -d);
      assert -d * -d == d * d;
    }
  }

  /** Height y and vertical speed v between ticks; a struck player may be higher. */
  predicate ArcOk(y: int, v: int, struck: bool) {
    && y >= 0 && Energy(y, v) <= HIT_ENERGY
    && (!struck ==> (y > 0 ==> Energy(y, v) <= JUMP_ENERGY) && (y == 0 ==> v <= 0))
  }

  /** The same before the body moves: it may just have jumped. */
  predicate ArcReady(y: int, v: int, struck: bool) {
    && y >= 0 && Energy(y, v) <= HIT_ENERGY
    && (!struck ==>
          || (Energy(y, v) <= JUMP_ENERGY && (y == 0 ==> v == JUMP_IMPULSE))
          || (y == 0 && v <= 0))
  }

  predicate Knocked(p: Player) {
    p.state == Tumble || p.state == Dead
  }

  predicate HeightOk(p: Player) {
    ArcOk(p.pos.y, p.vel.y, Knocked(p))
  }

  predicate TakeoffOk(p: Player) {
    ArcReady(p.pos.y, p.vel.y, Knocked(p))
  }

  lemma HeightBound(p: Player)
    requires HeightOk(p)
    ensures 0 <= p.pos.y <= 9666 && -1136 <= p.vel.y <= 1207
    ensures p.state != Tumble && p.state != Dead ==> p.pos.y <= 8684
  {
    SpeedTerm(p.vel.y);
  }

  lemma LeapHeight(p: Player, in': u16, c: Ctx)
    requires HeightOk(p)
    ensures TakeoffOk(Leap(Steer(p, in', c), in', c))
  {
    hide Steering, Heading, Approach, Tilt, Sin, Cos, Mul;
    SpeedTerm(JUMP_IMPULSE);
  }

  lemma CollideHeight(pos: Vec, vel: Vec, r: int, c: Ctx)
    ensures var (q, v) := Collide(pos, vel, r, c);
      && q.y == (if pos.y < 0 then 0 else pos.y)
      && v.y == (if pos.y < 0 && vel.y < 0 then 0 else vel.y)
  {
    hide Wall;
    var x, z := Wall(pos.x, vel.x, c.wx - r).0, Wall(pos.z, vel.z, c.wz - r).0;
    PillarsLevel(Vec(x, if pos.y < 0 then 0 else pos.y, z), r, Pillars(c.arena));
  }

  lemma BoxLevel(pos: Vec, r: int, b: Aabb)
    ensures PushOutBox(pos, r, b).y == pos.y
  {
    hide Len2, Mul, Div, Clamp;
  }

  lemma {:induction false} PillarsLevel(pos: Vec, r: int, boxes: seq<Aabb>)
    ensures PillarsFrom(pos, r, boxes).y == pos.y
    decreases |boxes|
  {
    hide PushOutBox;
    if boxes != [] {
      BoxLevel(pos, r, boxes[0]);
      PillarsLevel(PushOutBox(pos, r, boxes[0]), r, boxes[1..]);
    }
  }

  /** One tick of flight over the floor, in numbers. */
  lemma ArcStep(y: int, v: int, struck: bool)
    requires ArcReady(y, v, struck)
    ensures v - GRAVITY > TERMINAL_VY
    ensures var y1, v1 := y + (v - GRAVITY), v - GRAVITY;
      ArcOk(if y1 < 0 then 0 else y1, if y1 < 0 && v1 < 0 then 0 else v1, struck)
  {
    hide Kinetic;
    SpeedTerm(v);
    SpeedTerm(0);
    SpeedTerm(v - GRAVITY);
    FlightConserves(y, v);
  }

  lemma FlyIs(p: Player, c: Ctx)
    requires p.vel.y - GRAVITY > TERMINAL_VY
    ensures var q := Fly(p, c);
      var y1, v1 := p.pos.y + (p.vel.y - GRAVITY), p.vel.y - GRAVITY;
      && q.pos.y == (if y1 < 0 then 0 else y1) && q.vel.y == (if y1 < 0 && v1 < 0 then 0 else v1) && q.state == p.state
  {
    hide Collide;
    var v1 := p.vel.y - GRAVITY;
    CollideHeight(Vec(p.pos.x + p.vel.x, p.pos.y + v1, p.pos.z + p.vel.z), p.vel.(y := v1), PLAYER_RADIUS, c);
  }

  lemma FlyHeight(p: Player, c: Ctx)
    requires TakeoffOk(p)
    ensures HeightOk(Fly(p, c))
  {
    hide Fly, ArcOk, ArcReady;
    ArcStep(p.pos.y, p.vel.y, Knocked(p));
    FlyIs(p, c);
  }

  lemma UpkeepHeight(p: Player)
    requires HeightOk(p)
    ensures HeightOk(Upkeep(p))
  {
    hide Len2, Div, Mul, Energy;
  }

  lemma HandsStance(p: Player, i: Slot, bs: seq<Bomb>, in': u16, c: Ctx)
    requires p.held <= |bs| <= 0xFF
    ensures var q := Hands(p, i, bs, in', c).0; Stands(p, q)
    ensures var q := Lay(p, i, bs, in', c).0; Stands(p, q)
  {
    hide FanFrom, Thrown, FanDir, Extras, Laid, BombBit, Lays;
    if p.held > 0 && p.timer >= SPREAD_TICKS {
      var extras := Extras(p, bs);
      ExtrasNat(p, bs);
      var b := Thrown(p, bs[p.held - 1], FanDir(p, extras, 0), SPREAD_SPEED, SPREAD_UP);
      FanStance(p, i, bs[p.held - 1 := b], extras, 1);
    }
  }

  lemma {:induction false} FanStance(p: Player, i: Slot, bs: seq<Bomb>, extras: nat, k: nat)
    ensures var q := FanFrom(p, i, bs, extras, k).0; Stands(p, q)
    decreases extras + 1 - k
  {
    hide Thrown, FanDir;
    if k <= extras && FreeBombFrom(bs, 0).Some? {
      var j := FreeBombFrom(bs, 0).value;
      var b := Thrown(p, NO_BOMB.(owner := i), FanDir(p, extras, k), SPREAD_SPEED, SPREAD_UP);
      FanStance(p.(live := (p.live + 1) % 0x100), i, bs[j := b], extras, k + 1);
    }
  }

  /** The hands leave the body where it is. */
  predicate Stands(p: Player, q: Player) {
    q == p.(held := q.held, live := q.live, timer := q.timer)
  }

  // ------------------------------------------------------------------- speed

  predicate SpeedOk(p: Player) {
    && -KNOCKBACK <= p.vel.x <= KNOCKBACK && -KNOCKBACK <= p.vel.z <= KNOCKBACK
    && (p.state != Tumble && p.state != Dead ==> Len2(p.vel.x, p.vel.z) <= KNOCKBACK)
  }

  lemma TiltRange(in': u16)
    ensures 0 <= Mul(RUN_SPEED, Tilt(in')) <= RUN_SPEED
  {
    hide Len2;
    var t := Tilt(in');
    assert 0 <= t <= ONE;
    Monotone(0, t, RUN_SPEED);
    Monotone(t, ONE, RUN_SPEED);
  }

  /** A direction scaled to at most 621 is at most 655 long, table error and
      rounding included. */
  lemma ProjectBound(s: int, c: int, p: int)
    requires -ONE <= s <= ONE && -ONE <= c <= ONE && Sq(s) + Sq(c) <= ONE * ONE + 4029 && 0 <= p <= 621
    ensures -p <= Mul(s, p) <= p && -p <= Mul(c, p) <= p
    ensures Len2(Mul(s, p), -Mul(c, p)) <= KNOCKBACK
  {
    var a, b := Mul(s, p), Mul(c, p);
    assert Sq(621) == 385641 && Sq(656) == 430336;
    SquareAbs(b);
    SquareAbs(-b);
    hide Mul, Sq;
    ScaleBound(s, p);
    ScaleBound(c, p);
    ComponentSquare(s, p);
    ComponentSquare(c, p);
    Squares(p, 621);
    Spread(Sq(p), Sq(s), Sq(c));
    LenBound(a, -b, KNOCKBACK);
  }

  lemma Spread(p: nat, s: nat, c: nat)
    requires p <= 385641 && s + c <= ONE * ONE + 4029
    ensures p * s + p * c <= 385641 * (ONE * ONE + 4029)
  {
    assert p * s + p * c == p * (s + c);
    Monotone(s + c, ONE * ONE + 4029, p);
    Monotone(p, 385641, ONE * ONE + 4029);
  }

  lemma ComponentSquare(s: int, p: int)
    requires -ONE <= s <= ONE && 0 <= p <= 621
    ensures 16777216 * Sq(Mul(s, p)) <= Sq(p) * Sq(s) + 20837302272 + 16777216
  {
    var a := Mul(s, p);
    var t := s * p;
    assert ONE * a <= t < ONE * a + ONE;
    var m := Abs(t);
    assert Abs(ONE * a) <= m + ONE;
    Squares(Abs(ONE * a), m + ONE);
    SquareAbs(ONE * a);
    SquareAbs(t);
    assert Sq(ONE * a) == 16777216 * Sq(a);
    assert Sq(m + ONE) == Sq(m) + 8192 * m + 16777216;
    assert Sq(t) == Sq(p) * Sq(s) by { SquareProduct(s, p); }
    assert m <= ONE * 621 by {
      Monotone(s, ONE, p);
      Monotone(-ONE, s, p);
      Monotone(p, 621, ONE);
    }
  }

  lemma SquareProduct(s: int, p: int)
    ensures Sq(s * p) == Sq(p) * Sq(s)
  {
    assert (s * p) * (s * p) == (p * p) * (s * s);
  }

  lemma SteerSpeed(p: Player, in': u16, c: Ctx)
    requires SpeedOk(p) && p.state != Dead
    ensures SpeedOk(Leap(Steer(p, in', c), in', c))
  {
    TiltRange(in');
    hide Len2, Tilt, Mul, Heading, Sin, Cos, Sq;
    if p.state != Tumble {
      var q := Steer(p, in', c);
      var target := if Steering(p, in', c) then Mul(RUN_SPEED, Tilt(in')) else 0;
      var acc := if !OnGround(p) then AIR_CONTROL else if target == 0 then RUN_FRICTION else RUN_ACCEL;
      var speed := Approach(Len2(p.vel.x, p.vel.z), target, acc);
      assert 0 <= speed <= 621;
      DirectionBound(q.yaw);
      ProjectBound(Sin(q.yaw), Cos(q.yaw), speed);
    }
  }

  lemma LenMono(x: int, z: int, x': int, z': int)
    requires Abs(x') <= Abs(x) && Abs(z') <= Abs(z)
    ensures Len2(x', z') <= Len2(x, z)
  {
    hide Sq, Abs, Isqrt;
    var d := Len2(x, z);
    RootIs(Sq(x) + Sq(z));
    SquareAbs(x);
    SquareAbs(z);
    SquareAbs(x');
    SquareAbs(z');
    Squares(Abs(x'), Abs(x));
    Squares(Abs(z'), Abs(z));
    LenBound(x', z', d);
  }

  lemma FlySpeed(p: Player, c: Ctx)
    requires SpeedOk(p)
    ensures SpeedOk(Fly(p, c))
  {
    hide Len2, PillarsFrom;
    var q := Fly(p, c);
    assert q.vel.x == p.vel.x || q.vel.x == 0;
    assert q.vel.z == p.vel.z || q.vel.z == 0;
    LenMono(p.vel.x, p.vel.z, q.vel.x, q.vel.z);
  }

  /** Scaling a component down along its own direction never enlarges it. */
  lemma ShrinkBound(v: int, sp: int, ns: int)
    requires sp > 0 && 0 <= ns <= sp && Abs(v) <= sp
    ensures Abs(Mul(Div(v, sp), ns)) <= Abs(v)
  {
    var a := Abs(v);
    var u := (a * ONE) / sp;
    assert Div(v, sp) == if v >= 0 then u else -u;
    FloorIs(a * ONE, sp);
    assert u >= 0 by { QuotientBound(a * ONE, sp, a * ONE + 1) by { Monotone(1, sp, a * ONE + 1); } }
    assert u * ns <= a * ONE by {
      Monotone(ns, sp, u);
    }
    assert u * ns >= 0 by { Monotone(0, u, ns); }
    assert (-u) * ns == -(u * ns);
  }

  lemma SkidSpeed(p: Player)
    requires SpeedOk(p)
    ensures var v := Skid(p); -KNOCKBACK <= v.x <= KNOCKBACK && -KNOCKBACK <= v.z <= KNOCKBACK && v.y == p.vel.y
  {
    var sp := Len2(p.vel.x, p.vel.z);
    LegBound(p.vel.x, p.vel.z);
    if sp > 0 {
      ShrinkBound(p.vel.x, sp, Max(sp - RUN_FRICTION, 0));
      ShrinkBound(p.vel.z, sp, Max(sp - RUN_FRICTION, 0));
    }
    hide Len2, Mul, Div;
  }

  lemma NoLength()
    ensures Len2(0, 0) == 0
  {
  }

  lemma UpkeepSpeed(p: Player)
    requires SpeedOk(p)
    ensures SpeedOk(Upkeep(p))
  {
    hide Len2, Skid, OnGround;
    if p.state == Tumble {
      SkidSpeed(p);
      NoLength();
    }
  }

  // ----------------------------------------------------------- both together

  predicate BodyOk(p: Player) {
    HeightOk(p) && SpeedOk(p)
  }

  predicate AllBodiesOk(ps: Quad<Player>) {
    forall i: Slot :: BodyOk(ps.At(i))
  }

  lemma StandsBody(p: Player, q: Player)
    requires Stands(p, q)
    ensures TakeoffOk(p) ==> TakeoffOk(q)
    ensures SpeedOk(p) ==> SpeedOk(q)
  {
    hide Len2, ArcReady;
  }

  lemma ShiftedBody(p: Player, q: Player)
    requires Shifted(p, q) && BodyOk(p)
    ensures BodyOk(q)
  {
    hide Len2, ArcOk;
  }

  lemma WaitBody(p: Player, i: Slot, in': u16, c: Ctx)
    requires BodyOk(p) && p.state == Dead
    ensures BodyOk(Wait(p, i, in', c))
  {
    NoLength();
    SpeedTerm(0);
    hide Len2, Atan2, Kinetic;
  }

  /** A player's turn keeps height and speed in bounds, on either map. */
  lemma TurnBody(p: Player, i: Slot, bs: seq<Bomb>, in': u16, c: Ctx)
    requires BodyOk(p) && p.held <= |bs| <= 0xFF
    ensures BodyOk(PlayerTick(p, i, bs, in', c).0)
  {
    hide Steer, Leap, Hands, Lay, Fly, Upkeep, HeightOk, SpeedOk, TakeoffOk;
    TickLength(p, i, bs, in', c);
    if p.state == Dead {
      WaitBody(p, i, in', c);
    } else {
      var r1 := Leap(Steer(p, in', c), in', c);
      SteerHands(p, in', c);
      LeapHeight(p, in', c);
      SteerSpeed(p, in', c);
      HandsStance(r1, i, bs, in', c);
      var (r2, bs2) := Hands(r1, i, bs, in', c);
      StandsBody(r1, r2);
      LayStance(r2, i, bs2, in', c);
      var r3 := Lay(r2, i, bs2, in', c).0;
      StandsBody(r2, r3);
      FlyHeight(r3, c);
      FlySpeed(r3, c);
      UpkeepHeight(Fly(r3, c));
      UpkeepSpeed(Fly(r3, c));
      InputBody(Upkeep(Fly(r3, c)), in');
    }
  }

  lemma LayStance(p: Player, i: Slot, bs: seq<Bomb>, in': u16, c: Ctx)
    ensures Stands(p, Lay(p, i, bs, in', c).0)
  {
    hide Laid, Lays;
  }

  lemma InputBody(p: Player, in': u16)
    requires HeightOk(p) && SpeedOk(p)
    ensures HeightOk(p.(lastInput := in')) && SpeedOk(p.(lastInput := in'))
  {
    hide Len2, ArcOk;
  }

  lemma StruckBody(p: Player, center: Vec)
    requires BodyOk(p) && Exposed(p)
    ensures BodyOk(Struck(p, center))
  {
    HeightBound(p);
    SpeedTerm(KNOCKBACK_UP);
    StruckSpeed(p, center);
    hide Kinetic, Len2, Mul, Div, SpeedOk;
  }

  lemma StruckSpeed(p: Player, center: Vec)
    ensures SpeedOk(Struck(p, center))
  {
    var dx, dz := p.pos.x - center.x, p.pos.z - center.z;
    var d := Len2(dx, dz);
    LegBound(dx, dz);
    if d > 0 {
      UnitBound(dx, d);
      UnitBound(dz, d);
      ScaleBound(Div(dx, d), KNOCKBACK);
      ScaleBound(Div(dz, d), KNOCKBACK);
    }
    ScaleBound(ONE, KNOCKBACK);
    ScaleBound(0, KNOCKBACK);
    hide Len2, Mul, Div;
  }

  // ------------------------------------------------------------- whole stages

  lemma {:induction false} PlayersBody(ps: Quad<Player>, bs: seq<Bomb>, inputs: Quad<u16>, i: nat, c: Ctx)
    requires |bs| <= 0xFF && (forall j: Slot :: ps.At(j).held <= |bs|) && AllBodiesOk(ps)
    ensures AllBodiesOk(PlayersFrom(ps, bs, inputs, i, c).0)
    decreases 4 - i
  {
    hide PlayerTick, BodyOk, Quad.At;
    if i < 4 {
      TickLength(ps.At(i), i, bs, inputs.At(i), c);
      TurnBody(ps.At(i), i, bs, inputs.At(i), c);
      var (p, cs) := PlayerTick(ps.At(i), i, bs, inputs.At(i), c);
      PlayersBody(ps.With(i, p), cs, inputs, i + 1, c);
    }
  }

  lemma AllShiftedBody(ps: Quad<Player>, qs: Quad<Player>)
    requires AllShifted(ps, qs) && AllBodiesOk(ps)
    ensures AllBodiesOk(qs)
  {
    hide BodyOk, Shifted, Quad.At;
    forall i: Slot ensures BodyOk(qs.At(i)) {
      ShiftedBody(ps.At(i), qs.At(i));
    }
  }

  lemma {:induction false} DetonateBody(w: World, i: nat)
    requires AllBodiesOk(w.players)
    ensures AllBodiesOk(DetonateFrom(w, i).players)
    decreases |w.bombs| - i
  {
    hide AllBodiesOk, Detonate, KeepsHands;
    if i < |w.bombs| {
      if w.bombs[i].state == Exploding {
        DetonateOneBody(w, i);
        DetonateBody(Detonate(w, i), i + 1);
      } else {
        DetonateBody(w, i + 1);
      }
    }
  }

  lemma DetonateOneBody(w: World, i: nat)
    requires AllBodiesOk(w.players) && i < |w.bombs|
    ensures AllBodiesOk(Detonate(w, i).players)
  {
    hide FreeBlastFrom, HeightOk, SpeedOk, Quad.At;
    var o := w.bombs[i].owner;
    CounterBody(w.players.At(o), Detonate(w, i).players.At(o));
  }

  lemma CounterBody(p: Player, q: Player)
    requires q == p.(live := q.live)
    ensures BodyOk(p) ==> BodyOk(q)
  {
    hide Len2, ArcOk;
  }

  lemma DamageBody(w: World, center: Vec, radius: int, i: Slot)
    requires AllBodiesOk(w.players) && w.players.At(i).held <= |w.bombs|
    ensures AllBodiesOk(Damage(w, center, radius, i).players)
  {
    hide BodyOk, InReach, Exposed, Struck, Quad.At;
    if Exposed(w.players.At(i)) {
      StruckBody(w.players.At(i), center);
    }
  }

  lemma {:induction false} DamageAllBody(w: World, center: Vec, radius: int, n: u8, i: nat)
    requires AllBodiesOk(w.players) && HandsOk(w)
    ensures AllBodiesOk(DamageFrom(w, center, radius, n, i).players)
    decreases 4 - i
  {
    hide AllBodiesOk, Damage;
    if i < 4 && i < n {
      DamageBody(w, center, radius, i);
      DamageHands(w, center, radius, i);
      DamageAllBody(Damage(w, center, radius, i), center, radius, n, i + 1);
    }
  }

  lemma DamageHands(w: World, center: Vec, radius: int, i: Slot)
    requires HandsOk(w)
    ensures w.players.At(i).held <= |w.bombs| && HandsOk(Damage(w, center, radius, i))
  {
    hide Exposed, InReach, Quad.At, Mul, Div, Len2;
  }

  lemma {:induction false} BlastsBody(w: World, j: nat, c: Ctx)
    requires AllBodiesOk(w.players) && HandsOk(w)
    ensures AllBodiesOk(BlastsFrom(w, j, c).players)
    decreases |w.blasts| - j
  {
    hide AllBodiesOk, BlastTick, HandsOk;
    if j < |w.blasts| {
      BlastBody(w, j, c);
      BlastsBody(BlastTick(w, j, c), j + 1, c);
    }
  }

  lemma BlastBody(w: World, j: nat, c: Ctx)
    requires AllBodiesOk(w.players) && HandsOk(w) && j < |w.blasts|
    ensures AllBodiesOk(BlastTick(w, j, c).players)
  {
    hide AllBodiesOk, DamageFrom, ChainFrom, Radius;
    var l := w.blasts[j];
    if l.ttl != 0 {
      var g := Grown(l);
      var m := w.(blasts := w.blasts[j := g], bombs := ChainFrom(w.bombs, g.center, Radius(g), 0));
      DamageAllBody(m, g.center, Radius(g), c.n, 0);
    }
  }

  lemma WorldBody(w: World, inputs: Quad<u16>, c: Ctx)
    requires Sized(w) && HandsOk(w) && AllBodiesOk(w.players)
    ensures AllBodiesOk(WorldStep(w, inputs, c).players)
  {
    hide AllBodiesOk, PlayersFrom, PushFrom, BombsFrom, DetonateFrom, BlastsFrom, AllShifted, BombStep;
    PlayersBody(w.players, w.bombs, inputs, 0, c);
    var (ps, bs) := PlayersFrom(w.players, w.bombs, inputs, 0, c);
    PushShifts(ps, 0, 1);
    AllShiftedBody(ps, PushFrom(ps, 0, 1));
    var m := World(PushFrom(ps, 0, 1), bs, w.blasts);
    BombsFrame(m, 0, c);
    var n := BombsFrom(m, 0, c);
    AllShiftedBody(m.players, n.players);
    DetonateBody(n, 0);
    BlastsBody(DetonateFrom(n, 0), 0, c);
  }

  lemma ResetBody(ps: Quad<Player>, arena: ArenaId, n: u8)
    ensures AllBodiesOk(ResetWorld(ps, arena, n).players)
  {
    hide BodyOk, ResetPlayer;
    var w := ResetWorld(ps, arena, n);
    ResetPlayerBody(ps.x0, 0, arena, n);
    ResetPlayerBody(ps.x1, 1, arena, n);
    ResetPlayerBody(ps.x2, 2, arena, n);
    ResetPlayerBody(ps.x3, 3, arena, n);
  }

  lemma ResetPlayerBody(p: Player, i: Slot, arena: ArenaId, n: u8)
    ensures BodyOk(ResetPlayer(p, i, arena, n))
  {
    hide Atan2, Len2, Kinetic;
    NoLength();
    SpeedTerm(0);
  }

  lemma PhaseBody(s: State)
    requires AllBodiesOk(s.world.players)
    ensures AllBodiesOk(PhaseStep(s).world.players)
  {
    ResetBody(s.world.players, s.arena, s.numPlayers);
    hide AllBodiesOk, ResetWorld;
  }

  lemma JudgeBody(s: State)
    requires AllBodiesOk(s.world.players)
    ensures AllBodiesOk(Judge(s).world.players)
  {
    hide BodyOk, Quad.At, AliveFrom, LastAlive;
    match LastAlive(s.world.players, s.numPlayers, 0) {
      case None =>
      case Some(k) =>
        var p := s.world.players.At(k);
        AwardBody(p, p.(stocks := (p.stocks + 1) % 0x100));
    }
  }

  lemma AwardBody(p: Player, q: Player)
    requires q == p.(stocks := q.stocks) && BodyOk(p)
    ensures BodyOk(q)
  {
    hide Len2, ArcOk;
  }

  /** Every tick keeps heights and speeds in bounds, for every input, on both maps. */
  lemma TickBody(s: State, inputs: Quad<u16>)
    requires StateOk(s) && AllBodiesOk(s.world.players)
    ensures AllBodiesOk(Tick(s, inputs).world.players)
  {
    hide AllBodiesOk, WorldStep, PhaseStep, Judge, HandsOk;
    PhaseBody(s);
    var s1 := PhaseStep(s);
    WorldBody(s1.world, inputs, CtxOf(s1));
    JudgeBody(s1.(world := WorldStep(s1.world, inputs, CtxOf(s1))));
  }
}
