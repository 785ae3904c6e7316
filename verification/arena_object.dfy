// The simulation as the program runs it: one object whose tables are updated in
// place by nested loops in a fixed order, proved to compute Tick.

module ArenaObject {
  import opened Basics
  import opened ArenaMath
  import opened ArenaTypes
  import opened S = ArenaSim

  // ---------------------------------------------------- scans over the players

  method TouchesPlayer(b: Bomb, ps: Quad<Player>, n: u8) returns (hit: bool)
    ensures hit == HitsPlayer(b, ps, n, 0)
  {
    hide Len3;
    var pj := 0;
    while pj < n && pj < 4
      invariant 0 <= pj <= 4 && HitsPlayer(b, ps, n, pj) == HitsPlayer(b, ps, n, 0)
      decreases 4 - pj
    {
      var p := ps.At(pj);
      if !(pj == b.owner && b.bounced == 0) && p.state != Dead {
        var d := Vec(b.pos.x - p.pos.x, b.pos.y - (p.pos.y + PLAYER_HEIGHT / 2), b.pos.z - p.pos.z);
        if Len3(d) < PLAYER_RADIUS + BOMB_RADIUS {
          return true;
        }
      }
      pj := pj + 1;
    }
    hit := false;
  }

  method Slide(b: Bomb, ps: Quad<Player>, n: u8) returns (d: Bomb)
    ensures d == SlideScan(b, ps, n, 0)
  {
    hide Len2;
    d := b;
    var pj := 0;
    while pj < n && pj < 4
      invariant 0 <= pj <= 4 && SlideScan(d, ps, n, pj) == SlideScan(b, ps, n, 0)
      decreases 4 - pj
    {
      var p := ps.At(pj);
      if p.state != Dead && p.pos.y <= 2 * BOMB_RADIUS {
        var dist := Len2(d.pos.x - p.pos.x, d.pos.z - p.pos.z);
        var touch := PLAYER_RADIUS + BOMB_RADIUS;
        if d.bounced == pj + 1 {
          if dist >= touch + GRACE_GAP {
            d := d.(bounced := 0);
          }
        } else if dist < touch {
          return d.(state := Exploding);
        }
      }
      pj := pj + 1;
    }
  }

  method Kick(b: Bomb, ps: Quad<Player>, n: u8) returns (d: Bomb)
    ensures d == KickScan(b, ps, n, 0)
  {
    hide Len2, Sin, Cos, Mul;
    d := b;
    var pj := 0;
    while pj < n && pj < 4
      invariant 0 <= pj <= 4 && KickScan(d, ps, n, pj) == KickScan(b, ps, n, 0)
      decreases 4 - pj
    {
      var p := ps.At(pj);
      if p.state != Dead && p.state != Tumble {
        var dist := Len2(d.pos.x - p.pos.x, d.pos.z - p.pos.z);
        var touch := PLAYER_RADIUS + BOMB_RADIUS;
        if d.bounced == pj + 1 {
          if dist >= touch + GRACE_GAP {
            d := d.(bounced := 0);
          }
        } else if dist < touch && p.pos.y <= PLAYER_HEIGHT / 2 && Len2(p.vel.x, p.vel.z) >= KICK_MIN_VEL {
          return d.(state := Sliding, pos := d.pos.(y := 0),
                    vel := Vec(Mul(Sin(p.yaw), KICK_SPEED), 0, -Mul(Cos(p.yaw), KICK_SPEED)), bounced := pj + 1);
        }
      }
      pj := pj + 1;
    }
  }

  class Arena {
    var tick: u32
    var rng: bv32
    var round: u8
    var phase: Phase
    var phaseTimer: u16
    var arena: ArenaId
    var numPlayers: u8
    var shrink: u16
    const players: array<Player>
    const bombs: array<Bomb>
    const blasts: array<Blast>

    ghost predicate Valid()
      reads this
    {
      players.Length == 4 && bombs.Length == MAX_BOMBS && blasts.Length == MAX_BLASTS
    }

    function Four(): Quad<Player>
      reads this, players
      requires players.Length == 4
    {
      Quad(players[0], players[1], players[2], players[3])
    }

    ghost function Tables(): (w: World)
      reads this, players, bombs, blasts
      requires Valid()
      ensures Sized(w)
    {
      World(Four(), bombs[..], blasts[..])
    }

    ghost function Value(): State
      reads this, players, bombs, blasts
      requires Valid()
    {
      State(tick, rng, round, phase, phaseTimer, arena, numPlayers, shrink, Tables())
    }

    constructor (arenaId: ArenaId, n: u8, seed: bv32)
      ensures Valid() && fresh(players) && fresh(bombs) && fresh(blasts) && Value() == Init(arenaId, n, seed)
    {
      tick, round, phase, phaseTimer := 0, 0, Countdown, COUNTDOWN_TICKS;
      rng := if seed == 0 then 1 else seed;
      arena, numPlayers, shrink := arenaId, n, 0;
      players := new Player[4](_ => NO_PLAYER);
      bombs := new Bomb[MAX_BOMBS](_ => NO_BOMB);
      blasts := new Blast[MAX_BLASTS](_ => NO_BLAST);
      new;
      hide ResetWorld;
      assert Four() == Same(NO_PLAYER);
      Reset();
    }

    /** round_reset. */
    method Reset()
      requires Valid()
      modifies players, bombs, blasts, this`shrink
      ensures Tables() == ResetWorld(old(Four()), arena, numPlayers) && shrink == 0
    {
      hide ResetPlayer;
      ghost var was := Four();
      var i := 0;
      while i < 4
        invariant 0 <= i <= 4
        invariant forall k: Slot :: players[k] == if k < i then ResetPlayer(was.At(k), k, arena, numPlayers)
          else was.At(k)
      {
        players[i] := ResetPlayer(players[i], i, arena, numPlayers);
        i := i + 1;
      }
      ghost var reset := players[..];
      forall k: Slot ensures reset[k] == ResetPlayer(was.At(k), k, arena, numPlayers) {
      }
      i := 0;
      while i < MAX_BOMBS
        invariant 0 <= i <= MAX_BOMBS && players[..] == reset && forall k :: 0 <= k < i ==> bombs[k] == NO_BOMB
      {
        bombs[i] := NO_BOMB;
        i := i + 1;
      }
      i := 0;
      while i < MAX_BLASTS
        invariant 0 <= i <= MAX_BLASTS && players[..] == reset && forall k :: 0 <= k < i ==> blasts[k] == NO_BLAST
        invariant forall k :: 0 <= k < MAX_BOMBS ==> bombs[k] == NO_BOMB
      {
        blasts[i] := NO_BLAST;
        i := i + 1;
      }
      shrink := 0;
      assert bombs[..] == seq(MAX_BOMBS, _ => NO_BOMB) && blasts[..] == seq(MAX_BLASTS, _ => NO_BLAST);
      assert was.At(0) == was.x0 && was.At(1) == was.x1 && was.At(2) == was.x2 && was.At(3) == was.x3;
    }

    // ------------------------------------------------------------ free slots

    method FreeBomb() returns (r: Option<nat>)
      requires Valid()
      ensures r == FreeBombFrom(bombs[..], 0)
    {
      var i := 0;
      while i < MAX_BOMBS
        invariant 0 <= i <= MAX_BOMBS && FreeBombFrom(bombs[..], i) == FreeBombFrom(bombs[..], 0)
      {
        if bombs[i].state == Free {
          return Some(i);
        }
        i := i + 1;
      }
      r := None;
    }

    method FreeBlast() returns (r: Option<nat>)
      requires Valid()
      ensures r == FreeBlastFrom(blasts[..], 0)
    {
      var i := 0;
      while i < MAX_BLASTS
        invariant 0 <= i <= MAX_BLASTS && FreeBlastFrom(blasts[..], i) == FreeBlastFrom(blasts[..], 0)
      {
        if blasts[i].ttl == 0 {
          return Some(i);
        }
        i := i + 1;
      }
      r := None;
    }

    method CountFree() returns (r: nat)
      requires Valid()
      ensures r == FreeCount(bombs[..], 0)
    {
      r := 0;
      var i := 0;
      while i < MAX_BOMBS
        invariant 0 <= i <= MAX_BOMBS && r + FreeCount(bombs[..], i) == FreeCount(bombs[..], 0)
      {
        if bombs[i].state == Free {
          r := r + 1;
        }
        i := i + 1;
      }
    }

    // --------------------------------------------------------- a player's turn

    method LetGo(p0: Player, i: Slot) returns (p: Player)
      requires Valid() && 1 <= p0.held <= MAX_BOMBS
      modifies bombs
      ensures (p, bombs[..]) == Release(p0, i, old(bombs[..]))
    {
      hide Thrown, FanDir, FanFrom, FreeCount;
      p := p0;
      var h := p.held - 1;
      if p.timer < SPREAD_TICKS {
        bombs[h] := Thrown(p, bombs[h], p.yaw, THROW_SPEED, THROW_UP);
      } else {
        var free := CountFree();
        var extras := Max(Min(Min(MAX_LIVE - p.live, free), 3), 0);
        bombs[h] := Thrown(p, bombs[h], FanDir(p, extras, 0), SPREAD_SPEED, SPREAD_UP);
        p := Fan(p, i, extras);
      }
      p := p.(held := 0, timer := 0);
    }

    method Fan(p0: Player, i: Slot, extras: nat) returns (p: Player)
      requires Valid()
      modifies bombs
      ensures (p, bombs[..]) == FanFrom(p0, i, old(bombs[..]), extras, 1)
    {
      hide Thrown, FanDir;
      p := p0;
      var k := 1;
      while k <= extras
        invariant 1 <= k <= extras + 1
        invariant FanFrom(p, i, bombs[..], extras, k) == FanFrom(p0, i, old(bombs[..]), extras, 1)
      {
        var free := FreeBomb();
        if free.None? {
          return;
        }
        bombs[free.value] := Thrown(p, NO_BOMB.(owner := i), FanDir(p, extras, k), SPREAD_SPEED, SPREAD_UP);
        p := p.(live := (p.live + 1) % 0x100);
        k := k + 1;
      }
    }

    method UseHands(p0: Player, i: Slot, in': u16, c: Ctx) returns (p: Player)
      requires Valid() && p0.held <= MAX_BOMBS
      modifies bombs
      ensures (p, bombs[..]) == Hands(p0, i, old(bombs[..]), in', c)
    {
      hide Release, BombBit;
      p := p0;
      if !c.play || p.state == Tumble {
        return;
      }
      var now, was := BombBit(in'), BombBit(p.lastInput);
      if now && !was && p.held == 0 && p.live < MAX_LIVE {
        var free := FreeBomb();
        if free.Some? {
          bombs[free.value] := NO_BOMB.(owner := i, state := Held);
          p := p.(held := free.value + 1, live := (p.live + 1) % 0x100, timer := 0);
        }
      } else if now && p.held != 0 {
        if p.timer < 0xFFFF {
          p := p.(timer := p.timer + 1);
        }
      } else if !now && was && p.held != 0 {
        p := LetGo(p, i);
      }
    }

    method LayBomb(p0: Player, i: Slot, in': u16, c: Ctx) returns (p: Player)
      requires Valid()
      modifies bombs
      ensures (p, bombs[..]) == Lay(p0, i, old(bombs[..]), in', c)
    {
      hide Laid;
      p := p0;
      if Lays(p, in', c) {
        var free := FreeBomb();
        if free.Some? {
          bombs[free.value] := Laid(p, i, c);
          p := p.(live := (p.live + 1) % 0x100);
        }
      }
    }

    /** player_tick. */
    method Turn(i: Slot, in': u16, c: Ctx)
      requires Valid() && players[i].held <= MAX_BOMBS
      modifies players, bombs
      ensures var r := PlayerTick(old(players[i]), i, old(bombs[..]), in', c);
        bombs[..] == r.1 && Four() == old(Four()).With(i, r.0)
    {
      hide Steer, Leap, Fly, Upkeep, Hands, Lay, Wait;
      var p := players[i];
      if p.state == Dead {
        players[i] := Wait(p, i, in', c);
        return;
      }
      p := Leap(Steer(p, in', c), in', c);
      SteerHands(players[i], in', c);
      p := UseHands(p, i, in', c);
      p := LayBomb(p, i, in', c);
      players[i] := Upkeep(Fly(p, c)).(lastInput := in');
    }

    method Turns(inputs: Quad<u16>, c: Ctx)
      requires Valid() && forall j: Slot :: players[j].held <= MAX_BOMBS
      modifies players, bombs
      ensures (forall j: Slot :: old(Four()).At(j).held <= MAX_BOMBS)
      ensures (Four(), bombs[..]) == PlayersFrom(old(Four()), old(bombs[..]), inputs, 0, c)
    {
      hide PlayerTick, Quad.With;
      assert forall j: Slot :: Four().At(j) == players[j];
      var i := 0;
      while i < 4
        invariant 0 <= i <= 4
        invariant forall j: Slot :: Four().At(j).held <= MAX_BOMBS
        invariant PlayersFrom(Four(), bombs[..], inputs, i, c) == PlayersFrom(old(Four()), old(bombs[..]), inputs, 0, c)
      {
        assert Four().At(i) == players[i];
        TickLength(players[i], i, bombs[..], inputs.At(i), c);
        Turn(i, inputs.At(i), c);
        i := i + 1;
      }
    }

    // ------------------------------------------------------------ pushout

    method PushApart(a: Slot, b: Slot)
      requires Valid() && a != b
      modifies players
      ensures Four() == PushPair(old(Four()), a, b)
    {
      hide Len2, Mul, Div;
      assert Four().At(a) == players[a] && Four().At(b) == players[b];
      var pa, pb := players[a], players[b];
      if pa.state == Dead || pb.state == Dead {
        return;
      }
      var dx, dz := pb.pos.x - pa.pos.x, pb.pos.z - pa.pos.z;
      var d := Len2(dx, dz);
      if d >= 2 * PLAYER_RADIUS {
        return;
      }
      var push := (2 * PLAYER_RADIUS - d) / 2;
      var ux := if d > 0 then Div(dx, d) else ONE;
      var uz := if d > 0 then Div(dz, d) else 0;
      var sx, sz := Mul(ux, push), Mul(uz, push);
      players[a] := pa.(pos := pa.pos.(x := pa.pos.x - sx, z := pa.pos.z - sz));
      players[b] := pb.(pos := pb.pos.(x := pb.pos.x + sx, z := pb.pos.z + sz));
    }

    method PushAll()
      requires Valid()
      modifies players
      ensures Four() == PushFrom(old(Four()), 0, 1)
    {
      hide PushPair, KeepsHands;
      var a := 0;
      while a < 4
        invariant 0 <= a <= 4 && PushFrom(Four(), a, a + 1) == PushFrom(old(Four()), 0, 1)
      {
        var b := a + 1;
        while b < 4
          invariant a < b <= 4 && PushFrom(Four(), a, b) == PushFrom(old(Four()), 0, 1)
        {
          PushApart(a, b);
          b := b + 1;
        }
        a := a + 1;
      }
    }

    // -------------------------------------------------------------- bombs

    method TouchesBomb(b: Bomb, i: nat) returns (hit: bool)
      requires Valid()
      ensures hit == HitsBomb(b, i, bombs[..], 0)
    {
      hide Len3;
      var bj := 0;
      while bj < MAX_BOMBS
        invariant 0 <= bj <= MAX_BOMBS && HitsBomb(b, i, bombs[..], bj) == HitsBomb(b, i, bombs[..], 0)
      {
        var o := bombs[bj];
        if bj != i && OnFloor(o)
           && Len3(Vec(b.pos.x - o.pos.x, b.pos.y - o.pos.y, b.pos.z - o.pos.z)) < 2 * BOMB_RADIUS
        {
          return true;
        }
        bj := bj + 1;
      }
      hit := false;
    }

    method SlidesInto(b: Bomb, i: nat) returns (hit: bool)
      requires Valid()
      ensures hit == SlidesIntoBomb(b, i, bombs[..], 0)
    {
      hide Len2;
      var bj := 0;
      while bj < MAX_BOMBS
        invariant 0 <= bj <= MAX_BOMBS && SlidesIntoBomb(b, i, bombs[..], bj) == SlidesIntoBomb(b, i, bombs[..], 0)
      {
        var o := bombs[bj];
        if bj != i && OnFloor(o) && Len2(b.pos.x - o.pos.x, b.pos.z - o.pos.z) < 2 * BOMB_RADIUS {
          return true;
        }
        bj := bj + 1;
      }
      hit := false;
    }

    method StandOffAll(b: Bomb, n: u8)
      requires Valid()
      modifies players
      ensures Four() == StandScan(b, old(Four()), n, 0)
    {
      hide StandOff, OnGround, KeepsHands;
      var pj := 0;
      while pj < n && pj < 4
        invariant 0 <= pj <= 4 && StandScan(b, Four(), n, pj) == StandScan(b, old(Four()), n, 0)
        decreases 4 - pj
      {
        assert Four().At(pj) == players[pj];
        var p := players[pj];
        if p.state != Dead && b.bounced != pj + 1 && OnGround(p) {
          ghost var was := Four();
          players[pj] := p.(pos := StandOff(p.pos, b.pos));
          assert Four() == was.With(pj, p.(pos := StandOff(p.pos, b.pos)));
        }
        pj := pj + 1;
      }
    }

    method FlyOne(i: nat, c: Ctx) returns (d: Bomb)
      requires Valid() && i < MAX_BOMBS
      ensures d == FlyBomb(bombs[i], i, Tables(), c)
    {
      hide HitsPlayer, HitsBomb, Collide;
      d := bombs[i];
      d := d.(vel := d.vel.(y := d.vel.y - GRAVITY));
      d := d.(pos := Vec(d.pos.x + d.vel.x, d.pos.y + d.vel.y, d.pos.z + d.vel.z));
      var hit := TouchesPlayer(d, Four(), c.n);
      if !hit {
        hit := TouchesBomb(d, i);
      }
      if hit {
        return d.(state := Exploding);
      }
      var was := d;
      var (pos, v) := Collide(d.pos, d.vel, BOMB_RADIUS, c);
      d := d.(pos := pos, vel := v);
      if d.pos != was.pos || d.vel != was.vel {
        return d.(state := Exploding);
      }
      if d.pos.y <= 0 && d.vel.y < 0 {
        d := d.(pos := d.pos.(y := 0), state := Exploding);
      }
    }

    method Skate(i: nat, c: Ctx) returns (d: Bomb)
      requires Valid() && i < MAX_BOMBS
      ensures d == SlideBomb(bombs[i], i, Tables(), c)
    {
      hide SlideScan, SlidesIntoBomb, Collide;
      d := bombs[i];
      d := d.(pos := d.pos.(x := d.pos.x + d.vel.x, z := d.pos.z + d.vel.z));
      d := Slide(d, Four(), c.n);
      if d.state != Sliding {
        return;
      }
      var hit := SlidesInto(d, i);
      if hit {
        return d.(state := Exploding);
      }
      var was := d;
      var (pos, v) := Collide(d.pos, d.vel, BOMB_RADIUS, c);
      d := d.(pos := pos, vel := v);
      if pos.x != was.pos.x || pos.z != was.pos.z || v.x != was.vel.x || v.z != was.vel.z {
        return d.(state := Exploding);
      }
      d := Burn(d);
    }

    method OneBomb(i: nat, c: Ctx)
      requires Valid() && i < MAX_BOMBS
      modifies players, bombs
      ensures Tables() == BombTick(old(Tables()), i, c)
    {
      hide FlyBomb, SlideBomb, FallBomb, KickScan, StandScan, KeepsHands, Burn;
      var b := bombs[i];
      match b.state {
        case Held =>
          var p := Four().At(b.owner);
          bombs[i] := b.(pos := p.pos.(y := p.pos.y + PLAYER_HEIGHT));
        case Airborne =>
          var d := FlyOne(i, c);
          bombs[i] := d;
        case Falling => bombs[i] := FallBomb(b, Four(), c);
        case Sliding =>
          var d := Skate(i, c);
          bombs[i] := d;
        case Settled =>
          var k := Kick(b, Four(), c.n);
          if k.state == Settled {
            StandOffAll(k, c.n);
            k := Burn(k);
          }
          bombs[i] := k;
        case _ =>
      }
    }

    method AllBombs(c: Ctx)
      requires Valid()
      modifies players, bombs
      ensures Tables() == BombsFrom(old(Tables()), 0, c)
    {
      hide BombTick, KeepsHands;
      var i := 0;
      while i < MAX_BOMBS
        invariant 0 <= i <= MAX_BOMBS && BombsFrom(Tables(), i, c) == BombsFrom(old(Tables()), 0, c)
      {
        OneBomb(i, c);
        i := i + 1;
      }
    }

    // --------------------------------------------------------------- blasts

    /** detonate. */
    method Explode(i: nat)
      requires Valid() && i < MAX_BOMBS
      modifies players, bombs, blasts
      ensures Tables() == Detonate(old(Tables()), i)
    {
      hide KeepsHands;
      var b := bombs[i];
      var slot := FreeBlast();
      if slot.Some? {
        blasts[slot.value] := Blast(b.pos, 0, b.owner, BLAST_TTL);
      }
      assert Four().At(b.owner) == players[b.owner];
      if players[b.owner].live > 0 {
        players[b.owner] := players[b.owner].(live := players[b.owner].live - 1);
      }
      bombs[i] := b.(state := Free);
      assert Four() == old(Four()).With(b.owner, players[b.owner]);
    }

    method ExplodeAll()
      requires Valid()
      modifies players, bombs, blasts
      ensures Tables() == DetonateFrom(old(Tables()), 0)
    {
      hide Detonate, KeepsHands;
      var i := 0;
      while i < MAX_BOMBS
        invariant 0 <= i <= MAX_BOMBS && DetonateFrom(Tables(), i) == DetonateFrom(old(Tables()), 0)
      {
        if bombs[i].state == Exploding {
          Explode(i);
        }
        i := i + 1;
      }
    }

    method Chain(center: Vec, radius: int)
      requires Valid()
      modifies bombs
      ensures bombs[..] == ChainFrom(old(bombs[..]), center, radius, 0)
    {
      hide ChainOne;
      var i := 0;
      while i < MAX_BOMBS
        invariant 0 <= i <= MAX_BOMBS
        invariant ChainFrom(bombs[..], center, radius, i) == ChainFrom(old(bombs[..]), center, radius, 0)
      {
        bombs[i] := ChainOne(bombs[i], center, radius);
        i := i + 1;
      }
    }

    method HurtOne(center: Vec, radius: int, i: Slot)
      requires Valid() && HandsOk(Tables())
      modifies players, bombs
      ensures old(Tables()).players.At(i).held <= MAX_BOMBS && Tables() == Damage(old(Tables()), center, radius, i)
      ensures HandsOk(Tables())
    {
      hide Exposed, InReach, Len2, Mul, Div, Dropped;
      assert Four().At(i) == players[i];
      var p := players[i];
      if Exposed(p) && InReach(p, center, radius) {
        players[i] := Struck(p, center);
        if p.held != 0 {
          bombs[p.held - 1] := Dropped(bombs[p.held - 1], p, i);
        }
        assert Four() == old(Four()).With(i, Struck(p, center));
      }
    }

    method HurtAll(center: Vec, radius: int, n: u8)
      requires Valid() && HandsOk(Tables())
      modifies players, bombs
      ensures HandsOk(old(Tables())) && Tables() == DamageFrom(old(Tables()), center, radius, n, 0)
    {
      hide Damage, HandsOk;
      var i := 0;
      while i < n && i < 4
        invariant 0 <= i <= 4 && HandsOk(Tables()) && blasts[..] == old(blasts[..])
        invariant DamageFrom(Tables(), center, radius, n, i) == DamageFrom(old(Tables()), center, radius, n, 0)
        decreases 4 - i
      {
        HurtOne(center, radius, i);
        i := i + 1;
      }
    }

    method OneBlast(j: nat, c: Ctx)
      requires Valid() && j < MAX_BLASTS && HandsOk(Tables())
      modifies players, bombs, blasts
      ensures HandsOk(old(Tables())) && Tables() == BlastTick(old(Tables()), j, c)
    {
      hide DamageFrom, ChainFrom, Radius;
      var l := blasts[j];
      if l.ttl == 0 {
        return;
      }
      var g := Grown(l);
      blasts[j] := g;
      Chain(g.center, Radius(g));
      HurtAll(g.center, Radius(g), c.n);
    }

    method AllBlasts(c: Ctx)
      requires Valid() && HandsOk(Tables())
      modifies players, bombs, blasts
      ensures HandsOk(old(Tables())) && Tables() == BlastsFrom(old(Tables()), 0, c)
    {
      hide BlastTick, HandsOk;
      var j := 0;
      while j < MAX_BLASTS
        invariant 0 <= j <= MAX_BLASTS && HandsOk(Tables())
        invariant BlastsFrom(Tables(), j, c) == BlastsFrom(old(Tables()), 0, c)
      {
        OneBlast(j, c);
        j := j + 1;
      }
    }

    // -------------------------------------------------------------- the tick

    method SomeoneWon() returns (over: bool)
      requires Valid()
      ensures over == MatchOver(Value())
    {
      var i := 0;
      while i < numPlayers && i < 4
        invariant 0 <= i <= 4
        invariant forall k: Slot :: k < i && k < numPlayers ==> Four().At(k).stocks < ROUNDS_TO_WIN
        decreases 4 - i
      {
        assert Four().At(i) == players[i];
        if players[i].stocks >= ROUNDS_TO_WIN {
          return true;
        }
        i := i + 1;
      }
      over := false;
    }

    method Phases()
      requires Valid() && HandsOk(Tables())
      modifies this, players, bombs, blasts
      ensures Valid() && Value() == PhaseStep(old(Value()))
    {
      hide ResetWorld, HandsOk, MatchOver;
      match phase {
        case Countdown =>
          if phaseTimer > 0 {
            phaseTimer := phaseTimer - 1;
          }
          if phaseTimer == 0 {
            phase := Play;
          }
        case Play =>
          phaseTimer := (phaseTimer + 1) % 0x1_0000;
          if phaseTimer >= ROUND_TICKS {
            phase, shrink := SuddenDeath, 0;
          }
        case SuddenDeath =>
          phaseTimer := (phaseTimer + 1) % 0x1_0000;
          if phaseTimer % 60 == 0 && shrink < SHRINK_MAX {
            shrink := shrink + 1;
          }
        case RoundEnd =>
          var over := SomeoneWon();
          if phaseTimer > 0 {
            phaseTimer := phaseTimer - 1;
          }
          if phaseTimer == 0 && !over {
            Reset();
            phase, phaseTimer := Countdown, COUNTDOWN_TICKS;
          }
      }
    }

    method RoundOver()
      requires Valid()
      modifies this, players
      ensures Valid() && Value() == Judge(old(Value()))
    {
      hide HandsOk;
      if !InPlay(phase) {
        return;
      }
      var alive, last := 0, None;
      var i := 0;
      while i < numPlayers && i < 4
        invariant 0 <= i <= 4 && alive + AliveFrom(Four(), numPlayers, i) == AliveFrom(Four(), numPlayers, 0)
        invariant LastAlive(Four(), numPlayers, 0) ==
          if LastAlive(Four(), numPlayers, i).Some? then LastAlive(Four(), numPlayers, i) else last
        decreases 4 - i
      {
        assert Four().At(i) == players[i];
        if players[i].state != Dead {
          alive, last := alive + 1, Some(i);
        }
        i := i + 1;
      }
      if alive <= 1 {
        if last.Some? {
          var k: Slot := last.value;
          assert Four().At(k) == players[k];
          players[k] := players[k].(stocks := (players[k].stocks + 1) % 0x100);
          assert Four() == old(Four()).With(k, players[k]);
        }
        phase, phaseTimer := RoundEnd, ROUND_END_TICKS;
      }
    }

    method Stages(inputs: Quad<u16>, c: Ctx)
      requires Valid() && HandsOk(Tables())
      modifies players, bombs, blasts
      ensures HandsOk(old(Tables())) && Tables() == WorldStep(old(Tables()), inputs, c)
    {
      hide PlayersFrom, PushFrom, BombsFrom, DetonateFrom, BlastsFrom;
      assert forall j: Slot :: Four().At(j) == players[j];
      Turns(inputs, c);
      PushAll();
      AllBombs(c);
      ExplodeAll();
      AllBlasts(c);
    }

    /** arena_tick. */
    method Advance(inputs: Quad<u16>)
      requires Valid() && HandsOk(Tables())
      modifies this, players, bombs, blasts
      ensures Valid() && StateOk(old(Value())) && Value() == Tick(old(Value()), inputs)
    {
      hide HandsOk, PhaseStep, WorldStep, Judge;
      Phases();
      var half := HalfWidth(arena) - (if phase == SuddenDeath then shrink * SHRINK_STEP else 0);
      Stages(inputs, Ctx(InPlay(phase), half, half, arena, numPlayers));
      RoundOver();
      tick := (tick + 1) % TWO32;
    }
  }
}
