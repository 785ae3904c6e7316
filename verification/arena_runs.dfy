// The simulation's guarantees over every run from arena_init, for all inputs.

module ArenaRuns {
  import opened Basics
  import opened ArenaMath
  import opened ArenaTypes
  import opened ArenaSim
  import opened ArenaOwn
  import opened ArenaBounds
  import opened ArenaBox
  import opened ArenaLifetime
  import opened ArenaMatch
  import opened ArenaHits
  import opened ArenaWords
  import opened ArenaFits

  predicate SimInv(s: State) {
    LifeInv(s) && MatchInv(s) && (s.arena == 0 ==> BoxInv(s))
  }

  lemma InitSim(arena: ArenaId, n: u8, seed: bv32)
    requires 2 <= n <= 4
    ensures SimInv(Init(arena, n, seed)) && Init(arena, n, seed).arena == arena
  {
    hide LifeInv, MatchInv, BoxInv, StateOk, ResetWorld;
    InitLife(arena, n, seed);
    InitScore(arena, n, seed);
    if arena == 0 {
      InitBox(n, seed);
    }
  }

  lemma TickSim(s: State, inputs: Quad<u16>)
    requires SimInv(s)
    ensures StateOk(s) && SimInv(Tick(s, inputs)) && Tick(s, inputs).arena == s.arena
  {
    hide OwnInv, AllTicking, AllBodiesOk, ScoreOk, FieldBox, Tick, HandsOk;
    TickCloser(s, inputs, 0);
    TickScore(s, inputs);
    TickArena(s, inputs);
    if s.arena == 0 {
      TickBox(s, inputs);
    }
  }

  lemma TickArena(s: State, inputs: Quad<u16>)
    requires StateOk(s)
    ensures Tick(s, inputs).arena == s.arena
  {
    hide WorldStep, ResetWorld, HandsOk, MatchOver, AliveFrom, LastAlive;
  }

  lemma {:induction false} AfterSim(s: State, inputs: seq<Quad<u16>>)
    requires SimInv(s)
    ensures StateOk(s) && SimInv(After(s, inputs)) && After(s, inputs).arena == s.arena
    decreases |inputs|
  {
    hide LifeInv, BoxInv, Tick, HandsOk, ScoreOk;
    if inputs != [] {
      TickSim(s, inputs[0]);
      AfterSim(Tick(s, inputs[0]), inputs[1..]);
    }
  }

  /** Conservation over every run: counters, hands and table agree, the cap holds,
      and in play every holder's button is down. */
  lemma OwnershipHolds(arena: ArenaId, n: u8, seed: bv32, inputs: seq<Quad<u16>>, i: Slot)
    requires 2 <= n <= 4
    ensures var s := After(Init(arena, n, seed), inputs);
      var p, bs := s.world.players.At(i), s.world.bombs;
      && |bs| == MAX_BOMBS
      && p.live == Owned(bs, i, MAX_BOMBS) && p.live <= MAX_LIVE
      && p.held <= MAX_BOMBS
      && (p.held > 0 ==> bs[p.held - 1].state == Held && bs[p.held - 1].owner == i)
      && (forall j :: 0 <= j < MAX_BOMBS && bs[j].state == Held && bs[j].owner == i ==> p.held == j + 1)
      && (p.state == Dead || p.state == Tumble ==> p.held == 0)
      && (InPlay(s.phase) && p.held != 0 ==> BombBit(p.lastInput))
  {
    hide After, Init, AllBodiesOk, AllTicking, MatchInv, BoxInv, Owned, BombBit, Quad.At;
    InitSim(arena, n, seed);
    AfterSim(Init(arena, n, seed), inputs);
    var s := After(Init(arena, n, seed), inputs);
    assert OwnOk(s.world.players, s.world.bombs);
    assert SlotOk(s.world.players.At(i), i, s.world.bombs);
  }

  /** Score over every run: nobody exceeds the winning score, at most one reaches
      it, and only between rounds. */
  lemma ScoreHolds(arena: ArenaId, n: u8, seed: bv32, inputs: seq<Quad<u16>>, i: Slot, j: Slot)
    requires 2 <= n <= 4
    ensures var s := After(Init(arena, n, seed), inputs);
      var p, q := s.world.players.At(i), s.world.players.At(j);
      && p.stocks <= ROUNDS_TO_WIN
      && (p.stocks == ROUNDS_TO_WIN ==> s.phase == RoundEnd && i < s.numPlayers)
      && (p.stocks == ROUNDS_TO_WIN && q.stocks == ROUNDS_TO_WIN ==> i == j)
  {
    hide After, Init, LifeInv, BoxInv, StateOk, Quad.At;
    InitSim(arena, n, seed);
    AfterSim(Init(arena, n, seed), inputs);
    assert ScoreOk(After(Init(arena, n, seed), inputs));
  }

  /** Numbers over every run on map 0: heights, speeds and positions. */
  lemma NumbersHold(n: u8, seed: bv32, inputs: seq<Quad<u16>>, i: Slot, j: nat, k: nat)
    requires 2 <= n <= 4 && j < MAX_BOMBS && k < MAX_BLASTS
    ensures var s := After(Init(0, n, seed), inputs);
      var p := s.world.players.At(i);
      && |s.world.bombs| == MAX_BOMBS && |s.world.blasts| == MAX_BLASTS
      && 0 <= p.pos.y <= 9666 && -1136 <= p.vel.y <= 1207
      && -KNOCKBACK <= p.vel.x <= KNOCKBACK && -KNOCKBACK <= p.vel.z <= KNOCKBACK
      && Within(p.pos, REACH) && InBox(s.world.bombs[j].pos) && InBox(s.world.blasts[k].center)
         && BombSpeed(s.world.bombs[j])
      && 20714 <= CtxOf(PhaseStep(s)).wx
  {
    hide After, Init, LifeInv, MatchInv, Quad.At, Energy;
    InitSim(0, n, seed);
    AfterSim(Init(0, n, seed), inputs);
    var s := After(Init(0, n, seed), inputs);
    StoredInBox(s, i, j, k);
    PlayerNumbers(s, i);
    PhaseBox(s);
  }

  /** And every word that a tick from any reachable state of map 0 computes on its way,
      for any input, fits the width the program gives it. */
  lemma WordsFit(n: u8, seed: bv32, before: seq<Quad<u16>>, inputs: Quad<u16>)
    requires 2 <= n <= 4
    ensures TickFits(After(Init(0, n, seed), before), inputs)
  {
    hide After, Init, LifeInv, MatchInv, FieldBox, TickFits, HandsOk;
    InitSim(0, n, seed);
    AfterSim(Init(0, n, seed), before);
    TickSmall(After(Init(0, n, seed), before), inputs);
  }

  lemma PlayerNumbers(s: State, i: Slot)
    requires BoxInv(s)
    ensures var p := s.world.players.At(i);
      && -1136 <= p.vel.y <= 1207 && SpeedOk(p) && Within(p.pos, REACH)
  {
    var p := s.world.players.At(i);
    hide BombsBox, BlastsBox, StateOk, Quad.At;
    assert BodyOk(p);
    HeightBound(p);
  }

  /** Lifetime over every run: whatever happens, a bomb out of the hand frees its
      slot within FUSE_TICKS + 1 further ticks. */
  lemma LifetimeHolds(arena: ArenaId, n: u8, seed: bv32, before: seq<Quad<u16>>, after: seq<Quad<u16>>, j: nat)
    returns (k: nat)
    requires 2 <= n <= 4 && j < MAX_BOMBS && |after| >= FUSE_TICKS + 1
    requires |After(Init(arena, n, seed), before).world.bombs| == MAX_BOMBS
    requires Out(After(Init(arena, n, seed), before).world.bombs[j])
    ensures 1 <= k <= FUSE_TICKS + 1
    ensures var t := After(Init(arena, n, seed), before + after[..k]);
      |t.world.bombs| == MAX_BOMBS && t.world.bombs[j].state == Free
  {
    hide After, Init, OwnInv, AllBodiesOk, MatchInv, BoxInv, Rank, AllTicking;
    var s0 := Init(arena, n, seed);
    InitSim(arena, n, seed);
    AfterSim(s0, before);
    var s := After(s0, before);
    AtLeastOne(s.world.bombs[j], s, j);
    k := BombLifetime(s, after, j);
    AfterSplit(s0, before, after[..k]);
    AfterSim(s0, before + after[..k]);
  }

  /** Hit spacing over every run: whenever one player is hit twice, the two ticks are
      at least TUMBLE_TICKS + 1 apart, and at least TUMBLE_TICKS + INVULN_TICKS apart if
      that player grabbed no bomb in between. */
  lemma SpacingHolds(arena: ArenaId, n: u8, seed: bv32, before: seq<Quad<u16>>, inputs: seq<Quad<u16>>, i: Slot)
    requires 2 <= n <= 4 && HitTwice(After(Init(arena, n, seed), before), inputs, i)
    ensures |inputs| - 1 >= TUMBLE_TICKS + 1
    ensures var t := Tick(After(Init(arena, n, seed), before), inputs[0]);
      (forall k :: 0 <= k < |inputs| - 1 ==> EmptyHanded(After(t, inputs[1..][..k]), inputs[1..][k], i)) ==>
        |inputs| - 1 >= TUMBLE_TICKS + INVULN_TICKS
  {
    hide After, Init, Tick, OwnInv, AllBodiesOk, AllTicking, MatchInv, BoxInv, HandsOk, Hit, EmptyHanded;
    InitSim(arena, n, seed);
    AfterSim(Init(arena, n, seed), before);
    var s := After(Init(arena, n, seed), before);
    HitsAreSpaced(s, inputs, i);
    var t := Tick(s, inputs[0]);
    if forall k :: 0 <= k < |inputs| - 1 ==> EmptyHanded(After(t, inputs[1..][..k]), inputs[1..][k], i) {
      HitsAreSpacedWithoutGrab(s, inputs, i);
    }
  }

  lemma PhaseIgnoresRng(s: State, r: bv32)
    ensures PhaseStep(s.(rng := r)) == PhaseStep(s).(rng := r) && PhaseStep(s).rng == s.rng
  {
    hide ResetWorld, HandsOk, MatchOver;
    MatchOverIgnoresRng(s, r);
  }

  lemma MatchOverIgnoresRng(s: State, r: bv32)
    ensures MatchOver(s.(rng := r)) == MatchOver(s)
  {
    hide Quad.At;
  }

  lemma JudgeIgnoresRng(s: State, r: bv32)
    ensures Judge(s.(rng := r)) == Judge(s).(rng := r) && Judge(s).rng == s.rng
  {
    hide AliveFrom, LastAlive, HandsOk;
  }

  lemma CtxIgnoresRng(s: State, r: bv32)
    ensures CtxOf(s.(rng := r)) == CtxOf(s)
  {
  }

  /** The generator is neither read nor written by a tick. */
  lemma TickIgnoresRng(s: State, r: bv32, inputs: Quad<u16>)
    requires StateOk(s)
    ensures StateOk(s.(rng := r)) && Tick(s.(rng := r), inputs) == Tick(s, inputs).(rng := r)
    ensures Tick(s, inputs).rng == s.rng
  {
    hide WorldStep, HandsOk, PhaseStep, Judge, CtxOf;
    PhaseIgnoresRng(s, r);
    var s1 := PhaseStep(s);
    CtxIgnoresRng(s1, r);
    JudgeIgnoresRng(s1.(world := WorldStep(s1.world, inputs, CtxOf(s1))), r);
  }
}
