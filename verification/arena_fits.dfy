// On map 0 every word that a tick computes fits the program's 32 or 64 bits, in every
// run. The bounds of arena_bounds.dfy and arena_box.dfy leave so much room that crude
// ones suffice: lengths in the plane below 110000, unit components below 2^29.

module ArenaFits {
  import opened Basics
  import opened ArenaMath
  import opened ArenaTypes
  import opened ArenaSim
  import opened ArenaFrames
  import opened ArenaOwn
  import opened ArenaBounds
  import opened ArenaBox
  import opened ArenaWords

  // -------------------------------------------------------------- arithmetic

  const WIDE := 110000
  /** A component of the plane in units of its own length, unrounded: WIDE * ONE. */
  const UNIT := 450560000

  predicate Small(x: int) {
    -WIDE <= x <= WIDE
  }

  lemma Squared(x: int)
    requires Small(x)
    ensures 0 <= Sq(x) <= 12100000000
  {
    assert Sq(WIDE) == 12100000000;
    hide Sq;
    SquareAbs(x);
    Squares(Abs(x), WIDE);
  }

  lemma RootSmall(v: nat)
    requires v <= 36300000000
    ensures 0 <= Isqrt(v) < 200000
  {
    assert Sq(200000) == 40000000000;
    hide Sq, Isqrt;
    RootIs(v);
    SquaresStrict(Isqrt(v), 200000);
  }

  lemma LenSmall(x: int, z: int)
    requires Small(x) && Small(z)
    ensures LenFits(x, z) && 0 <= Len2(x, z) < 200000
  {
    hide Sq, Isqrt;
    Squared(x);
    Squared(z);
    RootSmall(Sq(x) + Sq(z));
  }

  lemma Len3Small(v: Vec)
    requires Small(v.x) && Small(v.y) && Small(v.z)
    ensures Len3Fits(v)
  {
    hide Sq, Isqrt;
    Squared(v.x);
    Squared(v.y);
    Squared(v.z);
    RootSmall(Sq(v.x) + Sq(v.y) + Sq(v.z));
  }

  lemma {:induction false} QuotientSmall(n: nat, d: int)
    requires d > 0
    ensures 0 <= n / d <= n
  {
    Monotone(1, d, n);
    QuotientBound(n, d, n);
  }

  lemma DivSmall(x: int, d: int)
    requires -131072 <= x <= 131072 && d > 0
    ensures DivFits(x, d)
    ensures Small(x) ==> -UNIT <= Div(x, d) <= UNIT
  {
    QuotientSmall(Abs(x) * ONE, d);
  }

  /** A unit component times at most ONE. */
  lemma MulSmall(u: int, s: int)
    requires -UNIT <= u <= UNIT && 0 <= s <= ONE
    ensures MulFits(u, s) && -UNIT <= Mul(u, s) <= UNIT
  {
    Monotone(u, UNIT, s);
    Monotone(-UNIT, u, s);
    Monotone(s, ONE, UNIT);
    assert -UNIT * ONE <= u * s <= UNIT * ONE;
  }

  lemma UnitSmall(x: int, z: int, d: int, s: int)
    requires Small(x) && Small(z) && 0 <= s <= ONE
    ensures UnitFits(x, z, d, s)
    ensures d > 0 ==> -UNIT <= Mul(Div(x, d), s) <= UNIT && -UNIT <= Mul(Div(z, d), s) <= UNIT
  {
    hide Div, Mul, MulFits, DivFits;
    if d > 0 {
      DivSmall(x, d);
      DivSmall(z, d);
      MulSmall(Div(x, d), s);
      MulSmall(Div(z, d), s);
    }
  }

  lemma AimSmall(dir: u16, s: int)
    requires 0 <= s <= ONE
    ensures AimFits(dir, s) && -UNIT <= Mul(Sin(dir), s) <= UNIT && -UNIT <= Mul(Cos(dir), s) <= UNIT
  {
    DirectionBound(dir);
    hide Sin, Cos, Mul, MulFits, Sq;
    MulSmall(Sin(dir), s);
    MulSmall(Cos(dir), s);
  }

  /** The ratio of the smaller to the larger is at most one. */
  lemma RatioBound(a: nat, b: nat)
    requires a <= b && 0 < b <= 131072
    ensures DivFits(a, b) && 0 <= Div(a, b) <= ONE
  {
    DivSmall(a, b);
    QuotientBound(a * ONE, b, ONE);
    assert Div(a, b) == (a * ONE) / b;
    hide Div, DivFits;
  }

  lemma QuadrantSmall(ax: nat, ay: nat)
    requires (ax != 0 || ay != 0) && ax <= 131072 && ay <= 131072
    ensures QuadrantFits(ax, ay)
  {
    hide Div, DivFits;
    if ax > ay {
      RatioBound(ay, ax);
    } else {
      RatioBound(ax, ay);
    }
    var t := if ax > ay then Div(ay, ax) else Div(ax, ay);
    CorrectionSmall(t);
  }

  lemma CorrectionSmall(t: int)
    requires 0 <= t <= ONE
    ensures Int32(ONE - t) && MulFits(1280, ONE - t) && MulFits(Mul(1280, ONE - t), t)
    ensures var corr := Mul(Mul(1280, ONE - t), t);
      Int64(corr * 0x2000) && Int64(0x2000 - (corr * 0x2000) / ONE) && Int64(t * (0x2000 - (corr * 0x2000) / ONE))
  {
    var m := Mul(1280, ONE - t);
    assert 0 <= m <= 1280;
    Monotone(0, t, m);
    Monotone(t, ONE, m);
    assert 0 <= m * t <= 1280 * ONE;
    var w := 0x2000 - (Mul(m, t) * 0x2000) / ONE;
    assert -2560 <= w <= 0x2000;
    Monotone(-2560, w, t);
    Monotone(w, 0x2000, t);
    assert t * w == w * t;
  }

  lemma AtanSmall(y: int, x: int)
    requires -131072 <= x <= 131072 && -131072 <= y <= 131072
    ensures AtanFits(y, x)
  {
    hide QuadrantFits;
    if x != 0 || y != 0 {
      QuadrantSmall(Abs(x), Abs(y));
    }
  }

  lemma SpawnSmall(arena: ArenaId)
    ensures SpawnFits(arena)
  {
    hide AtanFits;
    forall i: Slot ensures AtanFits(-Spawn(arena, i).x, -Spawn(arena, i).z) {
      AtanSmall(-Spawn(arena, i).x, -Spawn(arena, i).z);
    }
  }

  // ------------------------------------------------------------ player's turn

  lemma StickSmall(in': u16)
    ensures StickFits(in')
  {
    hide LenFits, AtanFits;
    var x, y := StickX(in') * ONE, StickY(in') * ONE;
    assert -131072 <= x <= 131072 && -131072 <= y <= 131072;
    LenSmall(TruncDiv(x, STICK_MAX), TruncDiv(y, STICK_MAX));
    AtanSmall(x, -y);
  }

  lemma TiltSmall(in': u16)
    ensures 0 <= Tilt(in') <= ONE && MulFits(RUN_SPEED, Tilt(in'))
  {
    hide Len2, MulFits, Mul, TruncDiv;
    assert 0 <= Tilt(in') <= ONE;
    MulSmall(RUN_SPEED, Tilt(in'));
  }

  lemma BodySmall(p: Player)
    requires BodyOk(p)
    ensures 0 <= p.pos.y <= 9666 && -1136 <= p.vel.y <= 1207
    ensures -KNOCKBACK <= p.vel.x <= KNOCKBACK && -KNOCKBACK <= p.vel.z <= KNOCKBACK
    ensures p.state != Tumble && p.state != Dead ==> 0 <= Len2(p.vel.x, p.vel.z) <= KNOCKBACK
  {
    HeightBound(p);
    hide HeightOk, Isqrt;
  }

  lemma SteerSmall(p: Player, in': u16, c: Ctx)
    requires BodyOk(p) && p.state != Dead
    ensures SteerFits(p, in', c)
  {
    BodySmall(p);
    StickSmall(in');
    TiltSmall(in');
    TiltRange(in');
    hide BodyOk, Len2, LenFits, StickFits, MulFits, Mul, Tilt, AimFits, Sin, Cos, Heading, Atan2;
    LenSmall(p.vel.x, p.vel.z);
    if p.state != Tumble {
      var yaw := if Steering(p, in', c) then Heading(p, in') else p.yaw;
      var target := if Steering(p, in', c) then Mul(RUN_SPEED, Tilt(in')) else 0;
      var acc := if !OnGround(p) then AIR_CONTROL else if target == 0 then RUN_FRICTION else RUN_ACCEL;
      hide Steering, OnGround;
      AimSmall(yaw, Approach(Len2(p.vel.x, p.vel.z), target, acc));
    }
  }

  lemma ThrowSmall(p: Player)
    requires 0 <= p.pos.y <= 9666
    ensures ThrowFits(p)
  {
    hide AimFits;
    forall dir: u16 ensures AimFits(dir, THROW_SPEED) && AimFits(dir, SPREAD_SPEED) {
      AimSmall(dir, THROW_SPEED);
      AimSmall(dir, SPREAD_SPEED);
    }
  }

  lemma ReachSmall(p: Player, reach: int)
    requires 0 <= p.pos.y <= 9666 && Within(p.pos, REACH) && 0 <= reach <= ONE
    ensures ReachFits(p, reach)
  {
    hide AimFits, Mul, Sin, Cos;
    AimSmall(p.yaw, reach);
  }

  lemma ClampSmall(c: Ctx)
    requires WallsOk(c)
    ensures ClampFits(c)
  {
  }

  lemma LaySmall(p: Player, c: Ctx)
    requires 0 <= p.pos.y <= 9666 && Within(p.pos, REACH) && WallsOk(c)
    ensures LayFits(p, c)
  {
    hide ReachFits, ClampFits;
    ReachSmall(p, HAND_FWD);
    ReachSmall(p, SET_OFFSET);
    ClampSmall(c);
  }

  lemma FlySmall(p: Player, c: Ctx)
    requires 0 <= p.pos.y <= 9666 && Within(p.pos, REACH) && WallsOk(c)
    requires -1136 <= p.vel.y <= 1207 && -KNOCKBACK <= p.vel.x <= KNOCKBACK && -KNOCKBACK <= p.vel.z <= KNOCKBACK
    ensures FlyFits(p, c)
  {
  }

  lemma UpkeepSmall(p: Player)
    requires SpeedOk(p)
    ensures UpkeepFits(p)
  {
    hide LenFits, UnitFits;
    LenSmall(p.vel.x, p.vel.z);
    LegBound(p.vel.x, p.vel.z);
    ShortLength(p);
    UnitSmall(p.vel.x, p.vel.z, Len2(p.vel.x, p.vel.z), Max(Len2(p.vel.x, p.vel.z) - RUN_FRICTION, 0));
    hide Len2;
  }

  lemma ShortLength(p: Player)
    requires SpeedOk(p)
    ensures Len2(p.vel.x, p.vel.z) <= 1000
  {
    assert Sq(KNOCKBACK) == 429025 && Sq(1001) == 1002001;
    hide Sq;
    SquareAbs(p.vel.x);
    SquareAbs(p.vel.z);
    Squares(Abs(p.vel.x), KNOCKBACK);
    Squares(Abs(p.vel.z), KNOCKBACK);
    LenBound(p.vel.x, p.vel.z, 1000);
  }

  /** Before the body moves: where it was, perhaps leaping. */
  lemma ReadySmall(p: Player)
    requires TakeoffOk(p)
    ensures -1136 <= p.vel.y <= 1207
  {
    hide Kinetic;
    SpeedTerm(p.vel.y);
  }

  lemma TurnSmall(p: Player, i: Slot, bs: seq<Bomb>, in': u16, c: Ctx)
    requires BodyOk(p) && Within(p.pos, REACH) && WallsOk(c) && p.held <= |bs| <= 0xFF
    ensures TurnFits(p, i, bs, in', c)
  {
    hide Steer, Leap, Hands, Lay, Fly, HeightOk, SpeedOk, TakeoffOk, SteerFits, ThrowFits, LayFits, FlyFits,
      UpkeepFits, SpawnFits, WallsOk, Within;
    if p.state == Dead {
      SpawnSmall(c.arena);
    } else {
      BodySmall(p);
      SteerSmall(p, in', c);
      var r1 := Leap(Steer(p, in', c), in', c);
      SteerHands(p, in', c);
      SteerPlace(p, in', c);
      LeapHeight(p, in', c);
      SteerSpeed(p, in', c);
      ThrowSmall(r1);
      HandsStance(r1, i, bs, in', c);
      TickLength(p, i, bs, in', c);
      var (r2, bs2) := Hands(r1, i, bs, in', c);
      StandsBody(r1, r2);
      LaySmall(r2, c);
      LayStance(r2, i, bs2, in', c);
      var r3 := Lay(r2, i, bs2, in', c).0;
      StandsBody(r2, r3);
      ReadySmall(r3);
      SpeedSmall(r3);
      FlySmall(r3, c);
      FlySpeed(r3, c);
      UpkeepSmall(Fly(r3, c));
    }
  }

  lemma SpeedSmall(p: Player)
    requires SpeedOk(p)
    ensures -KNOCKBACK <= p.vel.x <= KNOCKBACK && -KNOCKBACK <= p.vel.z <= KNOCKBACK
  {
    hide Len2;
  }

  lemma {:induction false} PlayersSmall(ps: Quad<Player>, bs: seq<Bomb>, inputs: Quad<u16>, i: nat, c: Ctx)
    requires |bs| <= 0xFF && (forall j: Slot :: ps.At(j).held <= |bs|) && WallsOk(c)
    requires AllBodiesOk(ps) && AllWithin(ps, REACH)
    ensures PlayersFit(ps, bs, inputs, i, c)
    decreases 4 - i
  {
    hide PlayerTick, Quad.At, Within, WallsOk, BodyOk, TurnFits;
    if i < 4 {
      TickLength(ps.At(i), i, bs, inputs.At(i), c);
      TurnSmall(ps.At(i), i, bs, inputs.At(i), c);
      TurnBody(ps.At(i), i, bs, inputs.At(i), c);
      TurnWithin(ps.At(i), i, bs, inputs.At(i), c);
      var (p, cs) := PlayerTick(ps.At(i), i, bs, inputs.At(i), c);
      InnerReach(p.pos);
      PlayersSmall(ps.With(i, p), cs, inputs, i + 1, c);
    }
  }

  // ------------------------------------------------------------- the pushouts

  lemma PairSmall(pa: Vec, pb: Vec)
    requires Within(pa, REACH) && Within(pb, REACH)
    ensures PairFits(pa, pb)
  {
    hide Len2, LenFits, UnitFits, MulFits, Mul, Div;
    var dx, dz := pb.x - pa.x, pb.z - pa.z;
    var d := Len2(dx, dz);
    LenSmall(dx, dz);
    if d < 2 * PLAYER_RADIUS {
      var push := (2 * PLAYER_RADIUS - d) / 2;
      UnitSmall(dx, dz, d, push);
      MulSmall(ONE, push);
      MulSmall(0, push);
      if d > 0 {
        DivSmall(dx, d);
        DivSmall(dz, d);
        MulSmall(Div(dx, d), push);
        MulSmall(Div(dz, d), push);
      }
    }
  }

  /** Wherever the players are within REACH before and after each pushout. */
  lemma PushSmall(ps: Quad<Player>)
    requires AllWithin(ps, INNER)
    ensures PushFits(ps, 0, 1)
  {
    var k := PLAYER_RADIUS;
    var r0 := Quad(INNER, INNER, INNER, INNER);
    BoundedIs(ps, INNER);
    hide PushPair, Bounded, AllWithin, PairFits;
    PairReach(ps, 0, 1, r0);
    var p1, r1 := PushPair(ps, 0, 1), Quad(INNER + k, INNER + k, INNER, INNER);
    PairReach(p1, 0, 2, r1);
    var p2, r2 := PushPair(p1, 0, 2), Quad(INNER + 2 * k, INNER + k, INNER + k, INNER);
    PairReach(p2, 0, 3, r2);
    var p3, r3 := PushPair(p2, 0, 3), Quad(INNER + 3 * k, INNER + k, INNER + k, INNER + k);
    PairReach(p3, 1, 2, r3);
    var p4, r4 := PushPair(p3, 1, 2), Quad(INNER + 3 * k, INNER + 2 * k, INNER + 2 * k, INNER + k);
    PairReach(p4, 1, 3, r4);
    var p5, r5 := PushPair(p4, 1, 3), Quad(INNER + 3 * k, INNER + 3 * k, INNER + 2 * k, INNER + 2 * k);
    PairOf(ps, 0, 1, r0);
    PairOf(p1, 0, 2, r1);
    PairOf(p2, 0, 3, r2);
    PairOf(p3, 1, 2, r3);
    PairOf(p4, 1, 3, r4);
    PairOf(p5, 2, 3, r5);
    assert PushFits(p3, 1, 2) by {
      assert PushFits(PushPair(p5, 2, 3), 2, 4);
      assert PushFits(p5, 1, 4) && PushFits(p4, 1, 3);
    }
    assert PushFits(p3, 0, 4) && PushFits(p2, 0, 3) && PushFits(p1, 0, 2);
  }

  lemma PairOf(ps: Quad<Player>, a: Slot, b: Slot, r: Quad<int>)
    requires Bounded(ps, r) && r.x0 <= REACH && r.x1 <= REACH && r.x2 <= REACH && r.x3 <= REACH
    ensures PairFits(ps.At(a).pos, ps.At(b).pos)
  {
    hide PairFits;
    PairSmall(ps.At(a).pos, ps.At(b).pos);
  }

  // -------------------------------------------------------------------- bombs

  predicate Spot(v: Vec) {
    -54000 <= v.x <= 54000 && -54000 <= v.z <= 54000 && -10000 <= v.y <= 18000
  }

  lemma GapSmall(a: Vec, b: Vec)
    requires Spot(a) && Spot(b)
    ensures GapFits(a, b)
  {
    hide Len3Fits, LenFits;
    var d := Vec(a.x - b.x, a.y - b.y, a.z - b.z);
    Len3Small(d);
    LenSmall(d.x, d.z);
  }

  /** Players and bombs are at spots. */
  predicate Placed(w: World) {
    (forall j: Slot :: Spot(Chest(w.players.At(j)))) && (forall j :: 0 <= j < |w.bombs| ==> Spot(w.bombs[j].pos))
  }

  lemma WorldPlaced(w: World)
    requires BombsBox(w.bombs) && AllBodiesOk(w.players) && AllWithin(w.players, REACH)
    ensures Placed(w)
  {
    forall j: Slot ensures Spot(Chest(w.players.At(j))) {
      ChestSpot(w.players, j);
    }
    forall j | 0 <= j < |w.bombs| ensures Spot(w.bombs[j].pos) {
      BombSpot(w.bombs[j]) by { assert BombBox(w.bombs[j]); }
    }
    hide Spot, BombsBox;
  }

  lemma ChestSpot(ps: Quad<Player>, j: Slot)
    requires AllBodiesOk(ps) && AllWithin(ps, REACH)
    ensures Spot(Chest(ps.At(j))) && BodyOk(ps.At(j)) && Within(ps.At(j).pos, REACH)
  {
    assert BodyOk(ps.At(j));
    BodySmall(ps.At(j));
    hide BodyOk, Quad.At;
  }

  lemma BombSpot(b: Bomb)
    requires BombBox(b)
    ensures Spot(b.pos)
  {
  }

  lemma ContactSmall(pos: Vec, w: World)
    requires Spot(pos) && Placed(w)
    ensures ContactFits(pos, w)
  {
    hide GapFits, Quad.At;
    forall j: Slot ensures Int32(Chest(w.players.At(j)).y) && GapFits(pos, Chest(w.players.At(j))) {
      assert Spot(Chest(w.players.At(j)));
      GapSmall(pos, Chest(w.players.At(j)));
    }
    forall j | 0 <= j < |w.bombs| ensures GapFits(pos, w.bombs[j].pos) {
      GapSmall(pos, w.bombs[j].pos);
    }
  }

  lemma FlyBombSmall(b: Bomb, w: World, c: Ctx)
    requires WallsOk(c) && BombBox(b) && b.state == Airborne && Placed(w)
    ensures FlyBombFits(b, w, c)
  {
    AirSpeed(b.pos.y, b.vel.y);
    AirStep(b.pos.y, b.vel.y);
    hide Energy, ContactFits, Placed;
    ContactSmall(Vec(b.pos.x + b.vel.x, b.pos.y + (b.vel.y - GRAVITY), b.pos.z + b.vel.z), w);
  }

  lemma FallBombSmall(b: Bomb, ps: Quad<Player>, c: Ctx)
    requires WallsOk(c) && BombBox(b) && b.state == Falling && AllBodiesOk(ps) && AllWithin(ps, REACH)
    ensures FallBombFits(b, ps, c)
  {
    ChestSpot(ps, b.owner);
    BodySmall(ps.At(b.owner));
    ReachSmall(ps.At(b.owner), HAND_FWD);
    ClampSmall(c);
    hide ReachFits, ClampFits, Energy, BodyOk, AllBodiesOk, AllWithin;
  }

  lemma SlideBombSmall(b: Bomb, w: World, c: Ctx)
    requires WallsOk(c) && BombBox(b) && b.state == Sliding && Placed(w)
    ensures SlideBombFits(b, w, c)
  {
    hide Energy, ContactFits, Placed;
    ContactSmall(b.pos.(x := b.pos.x + b.vel.x, z := b.pos.z + b.vel.z), w);
  }

  lemma KickSmall(b: Bomb, ps: Quad<Player>)
    requires BombBox(b) && AllBodiesOk(ps) && AllWithin(ps, REACH)
    ensures KickFits(b, ps)
  {
    BombSpot(b);
    hide GapFits, LenFits, AimFits, AllBodiesOk, AllWithin, BombBox;
    forall j: Slot
      ensures GapFits(b.pos, Chest(ps.At(j))) && LenFits(ps.At(j).vel.x, ps.At(j).vel.z)
        && AimFits(ps.At(j).yaw, KICK_SPEED)
    {
      ChestSpot(ps, j);
      BodySmall(ps.At(j));
      GapSmall(b.pos, Chest(ps.At(j)));
      LenSmall(ps.At(j).vel.x, ps.At(j).vel.z);
      AimSmall(ps.At(j).yaw, KICK_SPEED);
    }
  }

  lemma StandOffSmall(pos: Vec, b: Vec)
    requires Within(pos, REACH) && -54000 <= b.x <= 54000 && -54000 <= b.z <= 54000
    ensures StandOffFits(pos, b)
  {
    hide Len2, LenFits, UnitFits, Mul, Div;
    var dx, dz := pos.x - b.x, pos.z - b.z;
    LenSmall(dx, dz);
    if 0 < Len2(dx, dz) < BOMB_STAND_GAP {
      UnitSmall(dx, dz, Len2(dx, dz), BOMB_STAND_GAP - Len2(dx, dz));
    }
  }

  lemma {:induction false} StandSmall(b: Bomb, ps: Quad<Player>, n: u8, pj: nat)
    requires -54000 <= b.pos.x <= 54000 && -54000 <= b.pos.z <= 54000
    requires forall j: Slot :: pj <= j ==> Within(ps.At(j).pos, REACH)
    ensures StandFits(b, ps, n, pj)
    decreases 4 - pj
  {
    hide StandOff, StandOffFits, OnGround, Quad.At, Within;
    if pj < 4 && pj < n {
      var p := ps.At(pj);
      StandSmall(b, ps, n, pj + 1);
      StandOffSmall(p.pos, b.pos);
      StandSmall(b, ps.With(pj, p.(pos := StandOff(p.pos, b.pos))), n, pj + 1);
    }
  }

  lemma AllReach(ps: Quad<Player>)
    requires AllWithin(ps, REACH)
    ensures forall j: Slot :: Within(ps.At(j).pos, REACH)
  {
  }

  lemma BombSmall(w: World, i: nat, c: Ctx)
    requires i < |w.bombs| && WallsOk(c) && BombsBox(w.bombs) && AllBodiesOk(w.players) && AllWithin(w.players, REACH)
    ensures BombFits(w, i, c)
  {
    var b := w.bombs[i];
    assert BombBox(b);
    hide BombBox, AllBodiesOk, AllWithin, WallsOk, FlyBombFits, FallBombFits, SlideBombFits, KickFits, StandFits,
      Placed, KickScan;
    WorldPlaced(w);
    match b.state {
      case Held =>
        ChestSpot(w.players, b.owner);
      case Airborne => FlyBombSmall(b, w, c);
      case Falling => FallBombSmall(b, w.players, c);
      case Sliding => SlideBombSmall(b, w, c);
      case Settled =>
        KickSmall(b, w.players);
        KickBox(b, w.players, c.n, 0);
        BombSpot(KickScan(b, w.players, c.n, 0));
        AllReach(w.players);
        StandSmall(KickScan(b, w.players, c.n, 0), w.players, c.n, 0);
      case _ =>
    }
  }

  lemma {:induction false} BombsSmall(w: World, i: nat, c: Ctx, r: int)
    requires WallsOk(c) && BombsBox(w.bombs) && AllBodiesOk(w.players) && i <= |w.bombs|
    requires r >= 0 && AllWithin(w.players, r) && r + BOMB_STAND_GAP * (|w.bombs| - i) <= REACH
    ensures BombsFit(w, i, c)
    decreases |w.bombs| - i
  {
    hide AllWithin, BombTick, KeepsHands, BombBox, AllBodiesOk, WallsOk, BombStep, AllShifted, BombFits;
    if i < |w.bombs| {
      AllWithinMore(w.players, r, REACH);
      BombSmall(w, i, c);
      BombTickBox(w, i, c);
      BombTickFrame(w, i, c);
      BombReach(w, i, c, r);
      AllShiftedBody(w.players, BombTick(w, i, c).players);
      BombsSmall(BombTick(w, i, c), i + 1, c, r + BOMB_STAND_GAP);
    }
  }

  // ------------------------------------------------------------------- blasts

  lemma StruckSmall(p: Player, center: Vec)
    requires Spot(Chest(p)) && Spot(center)
    ensures StruckFits(p, center)
  {
    hide GapFits, UnitFits, Len2;
    GapSmall(Chest(p), center);
    UnitSmall(p.pos.x - center.x, p.pos.z - center.z, Len2(p.pos.x - center.x, p.pos.z - center.z), KNOCKBACK);
  }

  lemma RadiusSmall(l: Blast)
    ensures Int64(BLAST_RADIUS * l.radiusT) && 0 <= Radius(l) <= 40000000
  {
  }

  lemma BlastSmall(w: World, j: nat)
    requires FieldBox(w) && j < |w.blasts|
    ensures BlastFits(w, j)
  {
    WorldPlaced(w);
    var l := w.blasts[j];
    if l.ttl != 0 {
      var g := Grown(l);
      RadiusSmall(g);
      assert Spot(g.center);
      hide FieldBox, GapFits, StruckFits, Radius, Quad.At;
      forall k | 0 <= k < |w.bombs| ensures GapFits(w.bombs[k].pos, g.center) {
        GapSmall(w.bombs[k].pos, g.center);
      }
      forall k: Slot ensures StruckFits(w.players.At(k), g.center) {
        assert Spot(Chest(w.players.At(k)));
        StruckSmall(w.players.At(k), g.center);
      }
    }
  }

  lemma {:induction false} BlastsSmall(w: World, j: nat, c: Ctx)
    requires FieldBox(w) && HandsOk(w)
    ensures BlastsFit(w, j, c)
    decreases |w.blasts| - j
  {
    hide FieldBox, BlastTick, HandsOk, BlastFits;
    if j < |w.blasts| {
      BlastSmall(w, j);
      BlastBox(w, j, c);
      BlastsSmall(BlastTick(w, j, c), j + 1, c);
    }
  }

  // ------------------------------------------------------------------- a tick

  lemma WorldSmall(w: World, inputs: Quad<u16>, c: Ctx)
    requires Sized(w) && HandsOk(w) && FieldBox(w) && WallsOk(c)
    ensures WorldFits(w, inputs, c)
  {
    hide AllBodiesOk, AllWithin, BombsBox, PlayersFrom, PushFrom, BombsFrom, DetonateFrom, BlastsFrom, AllShifted,
      BombStep, BlastsBox, WallsOk, PlayersFit, PushFits, BombsFit, BlastsFit;
    PlayersSmall(w.players, w.bombs, inputs, 0, c);
    PlayersBox(w.players, w.bombs, inputs, 0, c);
    PlayersBody(w.players, w.bombs, inputs, 0, c);
    WithinReach(w.players);
    PlayersWithin(w.players, w.bombs, inputs, 0, c);
    var (ps, bs) := PlayersFrom(w.players, w.bombs, inputs, 0, c);
    PushSmall(ps);
    PushReach(ps);
    PushShifts(ps, 0, 1);
    AllShiftedBody(ps, PushFrom(ps, 0, 1));
    var m := World(PushFrom(ps, 0, 1), bs, w.blasts);
    var r := INNER + 3 * PLAYER_RADIUS;
    BombsSmall(m, 0, c, r);
    BombsBoxStep(m, 0, c, r);
    BombsReach(m, 0, c, r);
    BombsFrame(m, 0, c);
    var n := BombsFrom(m, 0, c);
    AllWithinMore(n.players, r + BOMB_STAND_GAP * 16, REACH);
    AllShiftedBody(m.players, n.players);
    DetonateAllBox(n, 0);
    BlastsSmall(DetonateFrom(n, 0), 0, c);
  }

  lemma PhaseSmall(s: State)
    requires BoxInv(s)
    ensures PhaseFits(s)
  {
    PhaseBox(s);
    SpawnSmall(s.arena);
    hide FieldBox, StateOk, SpawnFits, ResetWorld;
  }

  /** Every word of a tick on map 0 fits. */
  lemma TickSmall(s: State, inputs: Quad<u16>)
    requires BoxInv(s)
    ensures TickFits(s, inputs)
  {
    hide FieldBox, WorldFits, PhaseFits, PhaseStep, HandsOk, WallsOk;
    PhaseSmall(s);
    PhaseBox(s);
    WorldSmall(PhaseStep(s).world, inputs, CtxOf(PhaseStep(s)));
  }
}
