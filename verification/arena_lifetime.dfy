// Every bomb that is out of the hand goes off and frees its slot within 151 ticks,
// on either map, in any phase, for all inputs.

module ArenaLifetime {
  import opened Basics
  import opened ArenaMath
  import opened ArenaTypes
  import opened ArenaSim
  import opened ArenaFrames
  import opened ArenaOwn
  import opened ArenaBounds
  import opened ArenaBox

  // ------------------------------------------------------------------ the rank

  predicate Burning(b: Bomb) {
    b.state == Settled || b.state == Sliding || b.state == Falling
  }

  /** A fuse that has not run out, a flight still over the floor. */
  predicate Ticking(b: Bomb) {
    && (Burning(b) ==> 1 <= b.fuse <= FUSE_TICKS)
    && (b.state == Airborne ==> b.pos.y >= 0 && Energy(b.pos.y, b.vel.y) <= THROW_ENERGY)
  }

  predicate AllTicking(bs: seq<Bomb>) {
    forall j :: 0 <= j < |bs| ==> Ticking(bs[j])
  }

  predicate Out(b: Bomb) {
    b.state != Free && b.state != Held
  }

  /** How many more ticks a bomb can last. */
  function Rank(b: Bomb): int {
    match b.state
    case Free => 0
    case Held => 0
    case Exploding => 1
    case Airborne => (b.vel.y + 1435) / 71 + 2
    case Settled => b.fuse + 1
    case Falling => b.fuse + 1
    case Sliding => b.fuse
  }

  lemma RankRange(b: Bomb)
    requires Out(b) && Ticking(b)
    ensures 1 <= Rank(b) <= FUSE_TICKS + 1
  {
    if b.state == Airborne {
      AirSpeed(b.pos.y, b.vel.y);
    }
  }

  /** Stage 4: the bomb goes off or moves strictly closer to it, never at rank one
      without going off. */
  predicate Closer(b: Bomb, d: Bomb) {
    && Out(d) && Ticking(d)
    && (d.state == Exploding || (Rank(d) < Rank(b) && Rank(b) >= 2))
  }

  lemma FlyCloser(b: Bomb, i: nat, w: World, c: Ctx)
    requires b.state == Airborne && Ticking(b)
    ensures Closer(b, FlyBomb(b, i, w, c))
  {
    var vel := b.vel.(y := b.vel.y - GRAVITY);
    var pos := Vec(b.pos.x + vel.x, b.pos.y + vel.y, b.pos.z + vel.z);
    hide Collide, FlyBomb, Energy;
    FlyEnds(b, i, w, c);
    CollideHeight(pos, vel, BOMB_RADIUS, c);
    AirStep(b.pos.y, b.vel.y);
    AirSpeed(b.pos.y, b.vel.y);
    var d := FlyBomb(b, i, w, c);
    if d.state == Airborne {
      AirSpeed(d.pos.y, d.vel.y);
    }
  }

  lemma StepCloser(b: Bomb, d: Bomb)
    requires BombStep(b, d) && Burning(b) && Ticking(b)
    ensures Closer(b, d)
  {
    hide Energy;
  }

  lemma BombTickCloser(w: World, i: nat, c: Ctx)
    requires i < |w.bombs| && Ticking(w.bombs[i])
    ensures var b, d := w.bombs[i], BombTick(w, i, c).bombs[i];
      Ticking(d) && (b.state == Free || b.state == Held ==> d.state == b.state) && (Out(b) ==> Closer(b, d))
  {
    var b := w.bombs[i];
    BombTickFrame(w, i, c);
    hide Ticking, FlyBomb, FallBomb, SlideBomb, KickScan, StandScan, Burn, KeepsHands, AllShifted, Rank;
    if Burning(b) {
      StepCloser(b, BombTick(w, i, c).bombs[i]);
    } else if b.state == Airborne {
      FlyCloser(b, i, w, c);
    } else {
      RestTicking(b, BombTick(w, i, c).bombs[i]);
      assert b.state == Exploding ==> Closer(b, BombTick(w, i, c).bombs[i]);
    }
  }

  lemma RestTicking(b: Bomb, d: Bomb)
    requires !Burning(b) && b.state != Airborne && d.state == b.state
    ensures Ticking(d)
  {
  }

  /** Stage 4 over the table. */
  lemma {:induction false} BombsCloser(w: World, i: nat, c: Ctx)
    requires AllTicking(w.bombs)
    ensures var v := BombsFrom(w, i, c);
      && AllTicking(v.bombs) && |v.bombs| == |w.bombs|
      && (forall j :: i <= j < |w.bombs| ==>
            if Out(w.bombs[j]) then Closer(w.bombs[j], v.bombs[j]) else v.bombs[j].state == w.bombs[j].state)
      && (forall j :: 0 <= j < i && j < |w.bombs| ==> v.bombs[j] == w.bombs[j])
    decreases |w.bombs| - i
  {
    hide BombTick, Ticking, Closer, KeepsHands, AllShifted, BombStep;
    if i < |w.bombs| {
      BombTickFrame(w, i, c);
      BombTickCloser(w, i, c);
      BombsCloser(BombTick(w, i, c), i + 1, c);
    }
  }

  // ------------------------------------------------------------ players' turns

  lemma ThrownTicking(p: Player, b: Bomb, dir: u16, fwd: int, up: int)
    requires BodyOk(p) && (up == THROW_UP || up == SPREAD_UP)
    ensures Ticking(Thrown(p, b, dir, fwd, up))
  {
    HeightBound(p);
    ThrowEnergy(p.pos.y);
    hide Mul, Sin, Cos, Energy;
  }

  /** A turn leaves every bomb alone that is out of the hand. */
  predicate LeavesOut(bs: seq<Bomb>, cs: seq<Bomb>) {
    |cs| == |bs| && forall j :: 0 <= j < |bs| && Out(bs[j]) ==> cs[j] == bs[j]
  }

  lemma LeavesTrans(bs: seq<Bomb>, cs: seq<Bomb>, ds: seq<Bomb>)
    requires LeavesOut(bs, cs) && LeavesOut(cs, ds)
    ensures LeavesOut(bs, ds)
  {
  }

  lemma {:induction false} FanTicking(p: Player, i: Slot, bs: seq<Bomb>, extras: nat, k: nat)
    requires AllTicking(bs) && BodyOk(p)
    ensures var cs := FanFrom(p, i, bs, extras, k).1; AllTicking(cs) && LeavesOut(bs, cs)
    decreases extras + 1 - k
  {
    hide Thrown, FanDir, Ticking, HeightOk, SpeedOk;
    if k <= extras && FreeBombFrom(bs, 0).Some? {
      var j := FreeBombFrom(bs, 0).value;
      var b := Thrown(p, NO_BOMB.(owner := i), FanDir(p, extras, k), SPREAD_SPEED, SPREAD_UP);
      ThrownTicking(p, NO_BOMB.(owner := i), FanDir(p, extras, k), SPREAD_SPEED, SPREAD_UP);
      var q := p.(live := (p.live + 1) % 0x100);
      CounterBody(p, q);
      FanTicking(q, i, bs[j := b], extras, k + 1);
    }
  }

  lemma HandsTicking(p: Player, i: Slot, bs: seq<Bomb>, in': u16, c: Ctx)
    requires AllTicking(bs) && BodyOk(p) && p.held <= |bs| <= 0xFF && (p.held > 0 ==> bs[p.held - 1].state == Held)
    ensures var cs := Hands(p, i, bs, in', c).1; AllTicking(cs) && LeavesOut(bs, cs)
  {
    hide Thrown, FanDir, Energy, HeightOk, SpeedOk, FanFrom, Extras, BombBit;
    if p.held > 0 {
      var h := p.held - 1;
      ThrownTicking(p, bs[h], p.yaw, THROW_SPEED, THROW_UP);
      var extras := Extras(p, bs);
      ExtrasNat(p, bs);
      ThrownTicking(p, bs[h], FanDir(p, extras, 0), SPREAD_SPEED, SPREAD_UP);
      FanTicking(p, i, bs[h := Thrown(p, bs[h], FanDir(p, extras, 0), SPREAD_SPEED, SPREAD_UP)], extras, 1);
    }
  }

  lemma LayTicking(p: Player, i: Slot, bs: seq<Bomb>, in': u16, c: Ctx)
    requires AllTicking(bs)
    ensures var cs := Lay(p, i, bs, in', c).1; AllTicking(cs) && LeavesOut(bs, cs)
  {
    hide InWalls, Sin, Cos, Mul, Lays, Energy;
  }

  lemma TurnTicking(p: Player, i: Slot, bs: seq<Bomb>, in': u16, c: Ctx)
    requires AllTicking(bs) && BodyOk(p) && SlotOk(p, i, bs) && |bs| == MAX_BOMBS
    ensures var cs := PlayerTick(p, i, bs, in', c).1; AllTicking(cs) && LeavesOut(bs, cs)
  {
    HeldIs(p, i, bs);
    hide SlotOk, Steer, Leap, Hands, Lay, Fly, Upkeep, HeightOk, SpeedOk, AllTicking;
    if p.state != Dead {
      var r1 := Leap(Steer(p, in', c), in', c);
      SteerHands(p, in', c);
      SteerPlace(p, in', c);
      GroundBody(p, r1);
      HandsTicking(r1.(vel := p.vel, state := p.state), i, bs, in', c);
      SteerControl(p, in', c);
      HandsIgnoreVelocity(r1, p.vel, p.state, i, bs, in', c);
      TickLength(p, i, bs, in', c);
      var (r2, bs2) := Hands(r1, i, bs, in', c);
      LayTicking(r2, i, bs2, in', c);
      LeavesTrans(bs, bs2, Lay(r2, i, bs2, in', c).1);
    }
  }

  lemma HeldIs(p: Player, i: Slot, bs: seq<Bomb>)
    requires SlotOk(p, i, bs)
    ensures p.held <= |bs| && (p.held > 0 ==> bs[p.held - 1].state == Held)
  {
  }

  lemma {:induction false} PlayersTicking(ps: Quad<Player>, bs: seq<Bomb>, inputs: Quad<u16>, i: nat, c: Ctx)
    requires OwnOk(ps, bs) && (c.play ==> AllGripped(ps)) && (forall j: Slot :: ps.At(j).held <= |bs|)
    requires AllTicking(bs) && AllBodiesOk(ps)
    ensures var cs := PlayersFrom(ps, bs, inputs, i, c).1; AllTicking(cs) && LeavesOut(bs, cs)
    decreases 4 - i
  {
    hide PlayerTick, SlotOk, Gripped, Quad.At, BodyOk, AllTicking;
    if i < 4 {
      TickLength(ps.At(i), i, bs, inputs.At(i), c);
      TurnOwn(ps.At(i), i, bs, inputs.At(i), c);
      TurnTicking(ps.At(i), i, bs, inputs.At(i), c);
      TurnBody(ps.At(i), i, bs, inputs.At(i), c);
      var (p, cs) := PlayerTick(ps.At(i), i, bs, inputs.At(i), c);
      var qs := ps.With(i, p);
      forall k: Slot ensures SlotOk(qs.At(k), k, cs) {
        if k != i {
          OthersUnmoved(bs, cs, i, k, ps.At(k));
        }
      }
      HeldInside(qs, cs);
      PlayersTicking(qs, cs, inputs, i + 1, c);
      LeavesTrans(bs, cs, PlayersFrom(qs, cs, inputs, i + 1, c).1);
    }
  }

  // -------------------------------------------------- detonations and blasts

  lemma {:induction false} DetonateFrees(w: World, i: nat)
    requires AllTicking(w.bombs)
    ensures var v := DetonateFrom(w, i);
      AllTicking(v.bombs) && |v.bombs| == |w.bombs|
      && forall j :: 0 <= j < |w.bombs| ==>
           v.bombs[j] == if i <= j && w.bombs[j].state == Exploding then w.bombs[j].(state := Free) else w.bombs[j]
    decreases |w.bombs| - i
  {
    hide Energy, KeepsHands, FreeBlastFrom;
    if i < |w.bombs| {
      if w.bombs[i].state == Exploding {
        DetonateFrees(Detonate(w, i), i + 1);
      } else {
        DetonateFrees(w, i + 1);
      }
    }
  }

  /** What blasts do to a bomb that is not in a hand: nothing, or set it off. */
  predicate Blasted(b: Bomb, d: Bomb) {
    (b.state != Held ==> d == b || (Out(b) && d == b.(state := Exploding)))
  }

  predicate AllBlasted(bs: seq<Bomb>, cs: seq<Bomb>) {
    |cs| == |bs| && forall j :: 0 <= j < |bs| ==> Blasted(bs[j], cs[j])
  }

  lemma BlastedTrans(bs: seq<Bomb>, cs: seq<Bomb>, ds: seq<Bomb>)
    requires AllBlasted(bs, cs) && AllBlasted(cs, ds)
    ensures AllBlasted(bs, ds)
  {
  }

  lemma DamageTicking(w: World, center: Vec, radius: int, i: Slot)
    requires OwnOk(w.players, w.bombs) && w.players.At(i).held <= |w.bombs| && AllTicking(w.bombs)
    ensures var cs := Damage(w, center, radius, i).bombs; AllTicking(cs) && AllBlasted(w.bombs, cs)
  {
    hide Exposed, InReach, Struck, Quad.At, Energy;
    assert SlotOk(w.players.At(i), i, w.bombs);
  }

  lemma {:induction false} DamageAllTicking(w: World, center: Vec, radius: int, n: u8, i: nat)
    requires OwnOk(w.players, w.bombs) && HandsOk(w) && AllTicking(w.bombs)
    ensures var cs := DamageFrom(w, center, radius, n, i).bombs; AllTicking(cs) && AllBlasted(w.bombs, cs)
    decreases 4 - i
  {
    hide OwnOk, Damage, AllTicking, HandsOk, Blasted;
    if i < 4 && i < n {
      HandOf(w, i);
      DamageOwn(w, center, radius, i);
      DamageTicking(w, center, radius, i);
      var v := Damage(w, center, radius, i);
      OwnHands(v);
      DamageAllTicking(v, center, radius, n, i + 1);
      BlastedTrans(w.bombs, v.bombs, DamageFrom(v, center, radius, n, i + 1).bombs);
    } else {
      BlastedRefl(w.bombs);
    }
  }

  lemma BlastedRefl(bs: seq<Bomb>)
    ensures AllBlasted(bs, bs)
  {
  }

  lemma ChainTicking(bs: seq<Bomb>, center: Vec, radius: int)
    requires AllTicking(bs)
    ensures var cs := ChainFrom(bs, center, radius, 0); AllTicking(cs) && AllBlasted(bs, cs)
  {
    hide ChainFrom, Len3, Energy;
  }

  lemma BlastTicking(w: World, j: nat, c: Ctx)
    requires OwnOk(w.players, w.bombs) && HandsOk(w) && j < |w.blasts| && AllTicking(w.bombs)
    ensures var cs := BlastTick(w, j, c).bombs; AllTicking(cs) && AllBlasted(w.bombs, cs)
  {
    hide OwnOk, DamageFrom, AllTicking, HandsOk, ChainFrom, Radius, SameTitles, SameControl, Blasted, AllGripped;
    var l := w.blasts[j];
    BlastedRefl(w.bombs);
    if l.ttl != 0 {
      var g := Grown(l);
      var chained := ChainFrom(w.bombs, g.center, Radius(g), 0);
      ChainTicking(w.bombs, g.center, Radius(g));
      ChainTitles(w.bombs, g.center, Radius(g));
      ControlRefl(w.players);
      TitlesOwn(w.players, w.players, w.bombs, chained);
      var m := w.(blasts := w.blasts[j := g], bombs := chained);
      OwnHands(m);
      DamageAllTicking(m, g.center, Radius(g), c.n, 0);
      BlastedTrans(w.bombs, chained, DamageFrom(m, g.center, Radius(g), c.n, 0).bombs);
    }
  }

  lemma {:induction false} BlastsTicking(w: World, j: nat, c: Ctx)
    requires OwnOk(w.players, w.bombs) && HandsOk(w) && AllTicking(w.bombs)
    ensures var cs := BlastsFrom(w, j, c).bombs; AllTicking(cs) && AllBlasted(w.bombs, cs)
    decreases |w.blasts| - j
  {
    hide OwnOk, BlastTick, AllTicking, HandsOk, Blasted, AllGripped;
    if j < |w.blasts| {
      BlastOwn(w, j, c);
      BlastTicking(w, j, c);
      BlastsTicking(BlastTick(w, j, c), j + 1, c);
      BlastedTrans(w.bombs, BlastTick(w, j, c).bombs, BlastsFrom(w, j, c).bombs);
    } else {
      BlastedRefl(w.bombs);
    }
  }

  // ------------------------------------------------------------------ a tick

  /** One tick takes a bomb that is out to its end, or strictly closer. */
  predicate Nearer(b: Bomb, d: Bomb) {
    d.state == Free || (Out(d) && Rank(d) < Rank(b))
  }

  lemma CloserThenBlasted(b: Bomb, m: Bomb, d: Bomb)
    requires Out(b) && Closer(b, m)
    requires Blasted(if m.state == Exploding then m.(state := Free) else m, d)
    ensures Nearer(b, d)
  {
    hide Energy;
  }

  lemma WorldCloser(w: World, inputs: Quad<u16>, c: Ctx)
    requires Sized(w) && HandsOk(w) && OwnOk(w.players, w.bombs) && (c.play ==> AllGripped(w.players))
    requires AllBodiesOk(w.players) && AllTicking(w.bombs)
    ensures var v := WorldStep(w, inputs, c);
      AllTicking(v.bombs) && |v.bombs| == |w.bombs|
      && forall j :: 0 <= j < |w.bombs| && Out(w.bombs[j]) ==> Nearer(w.bombs[j], v.bombs[j])
  {
    hide OwnOk, AllGripped, PlayersFrom, PushFrom, BombsFrom, DetonateFrom, BlastsFrom, SameControl, AllShifted,
      KeepsHands, AllTicking, AllBodiesOk, Closer, Blasted, Nearer, BombStep;
    PlayersOwn(w.players, w.bombs, inputs, 0, c);
    PlayersTicking(w.players, w.bombs, inputs, 0, c);
    var (ps, bs) := PlayersFrom(w.players, w.bombs, inputs, 0, c);
    PushShifts(ps, 0, 1);
    ShiftedControl(ps, PushFrom(ps, 0, 1));
    SameTitlesRefl(bs);
    TitlesOwn(ps, PushFrom(ps, 0, 1), bs, bs);
    var m := World(PushFrom(ps, 0, 1), bs, w.blasts);
    BombsOwn(m, c);
    BombsCloser(m, 0, c);
    var n := BombsFrom(m, 0, c);
    DetonateAllOwn(n, 0);
    DetonateFrees(n, 0);
    var o := DetonateFrom(n, 0);
    OwnHands(o);
    BlastsTicking(o, 0, c);
    var v := BlastsFrom(o, 0, c);
    forall j | 0 <= j < |w.bombs| && Out(w.bombs[j]) ensures Nearer(w.bombs[j], v.bombs[j]) {
      CloserThenBlasted(w.bombs[j], n.bombs[j], v.bombs[j]);
    }
  }

  predicate LifeInv(s: State) {
    OwnInv(s) && AllBodiesOk(s.world.players) && AllTicking(s.world.bombs)
  }

  lemma InitLife(arena: ArenaId, n: u8, seed: bv32)
    ensures LifeInv(Init(arena, n, seed))
  {
    InitOwn(arena, n, seed);
    ResetBody(Same(NO_PLAYER), arena, n);
    hide AllBodiesOk, OwnInv, Energy;
  }

  lemma FreeTicks(bs: seq<Bomb>)
    requires AllFree(bs)
    ensures AllTicking(bs)
  {
    hide Energy;
  }

  lemma PhaseLife(s: State)
    requires LifeInv(s)
    ensures var t := PhaseStep(s);
      LifeInv(t) && (t.world == s.world || (t.phase == Countdown && AllFree(t.world.bombs)))
  {
    PhaseOwn(s);
    PhaseBody(s);
    ResetOwn(s.world.players, s.arena, s.numPlayers);
    FreeTicks(ResetWorld(s.world.players, s.arena, s.numPlayers).bombs);
    hide OwnInv, AllBodiesOk, AllTicking, AllFree, ResetWorld, OwnOk;
  }

  /** Every tick, for every input and in every phase, takes every bomb that is out
      of the hand strictly closer to being free. */
  lemma TickCloser(s: State, inputs: Quad<u16>, j: nat)
    requires LifeInv(s) && j < MAX_BOMBS
    ensures StateOk(s) && |s.world.bombs| == MAX_BOMBS == |Tick(s, inputs).world.bombs|
    ensures LifeInv(Tick(s, inputs))
    ensures Out(s.world.bombs[j]) ==> Nearer(s.world.bombs[j], Tick(s, inputs).world.bombs[j])
  {
    OwnState(s);
    TickOwn(s, inputs);
    TickBody(s, inputs);
    hide OwnInv, AllBodiesOk, AllTicking, WorldStep, PhaseStep, Judge, AllFree, HandsOk, Nearer;
    PhaseLife(s);
    var s1 := PhaseStep(s);
    OwnParts(s1);
    WorldCloser(s1.world, inputs, CtxOf(s1));
    JudgeBombs(s1.(world := WorldStep(s1.world, inputs, CtxOf(s1))));
    if s1.phase == Countdown && AllFree(s1.world.bombs) {
      CalmStep(s1.world, inputs, CtxOf(s1));
      AllFreeAt(WorldStep(s1.world, inputs, CtxOf(s1)).bombs, j);
      FreeIsNearer(s.world.bombs[j], WorldStep(s1.world, inputs, CtxOf(s1)).bombs[j]);
    }
  }

  lemma FreeIsNearer(b: Bomb, d: Bomb)
    requires d.state == Free
    ensures Nearer(b, d)
  {
  }

  lemma AllFreeAt(bs: seq<Bomb>, j: nat)
    requires AllFree(bs) && j < |bs|
    ensures bs[j].state == Free
  {
  }

  lemma OwnParts(s: State)
    requires OwnInv(s)
    ensures StateOk(s) && OwnOk(s.world.players, s.world.bombs) && |s.world.bombs| == MAX_BOMBS
    ensures CtxOf(s).play ==> AllGripped(s.world.players)
    ensures s.phase == Countdown ==> AllFree(s.world.bombs) && NoBlasts(s.world.blasts) && !CtxOf(s).play
  {
    OwnState(s);
    hide OwnOk, AllGripped, AllFree, NoBlasts;
  }

  lemma JudgeBombs(s: State)
    ensures Judge(s).world.bombs == s.world.bombs
  {
    hide AliveFrom, LastAlive;
  }

  /** A bomb out of the hand is FREE at the end of some tick within its rank, hence
      within FUSE_TICKS + 1 ticks, whatever the inputs. */
  lemma {:induction false} BombLifetime(s: State, inputs: seq<Quad<u16>>, j: nat) returns (k: nat)
    requires LifeInv(s) && j < MAX_BOMBS && |s.world.bombs| == MAX_BOMBS && Out(s.world.bombs[j])
    requires |inputs| >= Rank(s.world.bombs[j])
    ensures StateOk(s) && 1 <= k <= |inputs| && k <= Rank(s.world.bombs[j]) <= FUSE_TICKS + 1
    ensures After(s, inputs[..k]).world.bombs[j].state == Free
    decreases |inputs|
  {
    hide LifeInv, Tick, Rank, Ticking, HandsOk;
    TickCloser(s, inputs[0], j) by { AtLeastOne(s.world.bombs[j], s, j); }
    AtLeastOne(s.world.bombs[j], s, j);
    var t := Tick(s, inputs[0]);
    if t.world.bombs[j].state == Free {
      k := 1;
      assert inputs[..1][0] == inputs[0] && inputs[..1][1..] == [];
    } else {
      AtLeastOne(t.world.bombs[j], t, j);
      k := BombLifetime(t, inputs[1..], j);
      k := k + 1;
      assert inputs[..k][0] == inputs[0] && inputs[..k][1..] == inputs[1..][..k - 1];
    }
  }

  lemma AtLeastOne(b: Bomb, s: State, j: nat)
    requires LifeInv(s) && j < |s.world.bombs| && b == s.world.bombs[j] && Out(b)
    ensures 1 <= Rank(b) <= FUSE_TICKS + 1
  {
    hide OwnInv, AllBodiesOk, Rank, Ticking;
    RankRange(b);
  }
}
