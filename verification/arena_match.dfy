// Rounds and matches: who can have won, what a won match does, and how a round
// without a winner leads to the next one.

module ArenaMatch {
  import opened Basics
  import opened ArenaMath
  import opened ArenaTypes
  import opened ArenaSim
  import opened ArenaFrames
  import opened ArenaOwn
  import opened ArenaBounds

  // ------------------------------------------------------------------ stocks

  predicate SameStocks(ps: Quad<Player>, qs: Quad<Player>) {
    forall i: Slot :: qs.At(i).stocks == ps.At(i).stocks
  }

  lemma TurnStocks(p: Player, i: Slot, bs: seq<Bomb>, in': u16, c: Ctx)
    requires p.held <= |bs| <= 0xFF
    ensures PlayerTick(p, i, bs, in', c).0.stocks == p.stocks
  {
    hide Steer, Leap, Hands, Lay, Fly, Upkeep, Atan2;
    TickLength(p, i, bs, in', c);
    if p.state != Dead {
      var r1 := Leap(Steer(p, in', c), in', c);
      SteerControl(p, in', c);
      HandsStance(r1, i, bs, in', c);
      var (r2, bs2) := Hands(r1, i, bs, in', c);
      LayStance(r2, i, bs2, in', c);
      BodyControl(Lay(r2, i, bs2, in', c).0, c);
    }
  }

  lemma {:induction false} PlayersStocks(ps: Quad<Player>, bs: seq<Bomb>, inputs: Quad<u16>, i: nat, c: Ctx)
    requires |bs| <= 0xFF && forall j: Slot :: ps.At(j).held <= |bs|
    ensures SameStocks(ps, PlayersFrom(ps, bs, inputs, i, c).0)
    decreases 4 - i
  {
    hide PlayerTick, Quad.At;
    if i < 4 {
      TickLength(ps.At(i), i, bs, inputs.At(i), c);
      TurnStocks(ps.At(i), i, bs, inputs.At(i), c);
      var (p, cs) := PlayerTick(ps.At(i), i, bs, inputs.At(i), c);
      PlayersStocks(ps.With(i, p), cs, inputs, i + 1, c);
    }
  }

  lemma ShiftedStocks(ps: Quad<Player>, qs: Quad<Player>)
    requires AllShifted(ps, qs)
    ensures SameStocks(ps, qs)
  {
    hide Quad.At;
  }

  lemma StocksTrans(ps: Quad<Player>, qs: Quad<Player>, rs: Quad<Player>)
    requires SameStocks(ps, qs) && SameStocks(qs, rs)
    ensures SameStocks(ps, rs)
  {
    hide Quad.At;
  }

  lemma {:induction false} DetonateStocks(w: World, i: nat)
    ensures SameStocks(w.players, DetonateFrom(w, i).players)
    decreases |w.bombs| - i
  {
    hide FreeBlastFrom, KeepsHands, Quad.At;
    if i < |w.bombs| {
      if w.bombs[i].state == Exploding {
        DetonateStocks(Detonate(w, i), i + 1);
      } else {
        DetonateStocks(w, i + 1);
      }
    }
  }

  lemma {:induction false} DamageStocks(w: World, center: Vec, radius: int, n: u8, i: nat)
    requires HandsOk(w)
    ensures SameStocks(w.players, DamageFrom(w, center, radius, n, i).players)
    decreases 4 - i
  {
    hide Exposed, InReach, Quad.At, Mul, Div, Len2;
    if i < 4 && i < n {
      DamageHands(w, center, radius, i);
      DamageStocks(Damage(w, center, radius, i), center, radius, n, i + 1);
    }
  }

  lemma {:induction false} BlastsStocks(w: World, j: nat, c: Ctx)
    requires HandsOk(w)
    ensures SameStocks(w.players, BlastsFrom(w, j, c).players)
    decreases |w.blasts| - j
  {
    hide DamageFrom, ChainFrom, Radius, Quad.At;
    if j < |w.blasts| {
      var l := w.blasts[j];
      if l.ttl != 0 {
        var g := Grown(l);
        DamageStocks(w.(blasts := w.blasts[j := g], bombs := ChainFrom(w.bombs, g.center, Radius(g), 0)),
                     g.center, Radius(g), c.n, 0);
      }
      BlastsStocks(BlastTick(w, j, c), j + 1, c);
    }
  }

  lemma WorldStocks(w: World, inputs: Quad<u16>, c: Ctx)
    requires Sized(w) && HandsOk(w)
    ensures SameStocks(w.players, WorldStep(w, inputs, c).players)
  {
    hide SameStocks, PlayersFrom, PushFrom, BombsFrom, DetonateFrom, BlastsFrom, AllShifted, BombStep;
    PlayersStocks(w.players, w.bombs, inputs, 0, c);
    var (ps, bs) := PlayersFrom(w.players, w.bombs, inputs, 0, c);
    PushShifts(ps, 0, 1);
    ShiftedStocks(ps, PushFrom(ps, 0, 1));
    StocksTrans(w.players, ps, PushFrom(ps, 0, 1));
    var m := World(PushFrom(ps, 0, 1), bs, w.blasts);
    BombsFrame(m, 0, c);
    var n := BombsFrom(m, 0, c);
    ShiftedStocks(m.players, n.players);
    StocksTrans(w.players, m.players, n.players);
    DetonateStocks(n, 0);
    StocksTrans(w.players, n.players, DetonateFrom(n, 0).players);
    BlastsStocks(DetonateFrom(n, 0), 0, c);
    StocksTrans(w.players, DetonateFrom(n, 0).players, WorldStep(w, inputs, c).players);
  }

  // --------------------------------------------------------------- the match

  /** While a round is on nobody has won the match; after it at most one has, with
      exactly the winning score. */
  predicate ScoreOk(s: State) {
    && (s.phase != RoundEnd ==> forall i: Slot :: s.world.players.At(i).stocks < ROUNDS_TO_WIN)
    && (forall i: Slot :: s.world.players.At(i).stocks <= ROUNDS_TO_WIN)
    && (forall i: Slot, j: Slot ::
          s.world.players.At(i).stocks == ROUNDS_TO_WIN && s.world.players.At(j).stocks == ROUNDS_TO_WIN ==> i == j)
    && (forall i: Slot :: i >= s.numPlayers ==> s.world.players.At(i).stocks == 0)
  }

  predicate MatchInv(s: State) {
    2 <= s.numPlayers <= 4 && StateOk(s) && ScoreOk(s)
  }

  lemma ResetStocks(ps: Quad<Player>, arena: ArenaId, n: u8)
    ensures SameStocks(ps, ResetWorld(ps, arena, n).players)
  {
    hide Atan2;
  }

  lemma PhaseScore(s: State)
    requires MatchInv(s)
    ensures var t := PhaseStep(s);
      MatchInv(t) && t.numPlayers == s.numPlayers && t.arena == s.arena
  {
    ResetStocks(s.world.players, s.arena, s.numPlayers);
    hide ResetWorld, HandsOk, Quad.At;
  }

  lemma {:induction false} LastInRange(ps: Quad<Player>, n: u8, i: nat)
    ensures LastAlive(ps, n, i).Some? ==> LastAlive(ps, n, i).value < n
    decreases 4 - i
  {
    if i < 4 && i < n {
      LastInRange(ps, n, i + 1);
    }
  }

  lemma JudgeScore(s: State)
    requires MatchInv(s)
    ensures MatchInv(Judge(s))
  {
    LastInRange(s.world.players, s.numPlayers, 0);
    assert StateOk(Judge(s));
    hide AliveFrom, LastAlive, Quad.At, HandsOk;
  }

  lemma SameScore(s: State, w: World)
    requires MatchInv(s) && SameStocks(s.world.players, w.players) && Sized(w) && HandsOk(w)
    ensures MatchInv(s.(world := w))
  {
    hide Quad.At;
  }

  /** Every tick keeps the score in order. */
  lemma TickScore(s: State, inputs: Quad<u16>)
    requires MatchInv(s)
    ensures MatchInv(Tick(s, inputs)) && Tick(s, inputs).numPlayers == s.numPlayers
  {
    hide ScoreOk, WorldStep, PhaseStep, Judge, HandsOk, SameStocks;
    PhaseScore(s);
    var s1 := PhaseStep(s);
    WorldStocks(s1.world, inputs, CtxOf(s1));
    SameScore(s1, WorldStep(s1.world, inputs, CtxOf(s1)));
    var s2 := s1.(world := WorldStep(s1.world, inputs, CtxOf(s1)));
    JudgeScore(s2);
    JudgeShape(s2);
    ScoreTick(Judge(s2), (Judge(s2).tick + 1) % TWO32);
  }

  lemma ScoreTick(s: State, t: u32)
    requires MatchInv(s)
    ensures MatchInv(s.(tick := t))
  {
    hide HandsOk, Quad.At;
  }

  lemma JudgeShape(s: State)
    ensures Judge(s).numPlayers == s.numPlayers && Judge(s).arena == s.arena && Judge(s).world.bombs == s.world.bombs
    ensures Judge(s).world.blasts == s.world.blasts
    ensures !InPlay(s.phase) ==> Judge(s) == s
  {
    hide AliveFrom, LastAlive, Quad.With;
  }

  lemma InitScore(arena: ArenaId, n: u8, seed: bv32)
    requires 2 <= n <= 4
    ensures MatchInv(Init(arena, n, seed))
  {
    ResetStocks(Same(NO_PLAYER), arena, n);
    hide ResetWorld, HandsOk;
  }

  // ------------------------------------------------------------ a won match

  lemma PhaseWon(s: State)
    requires s.phase == RoundEnd && MatchOver(s)
    ensures PhaseStep(s) == s.(phaseTimer := PhaseStep(s).phaseTimer)
  {
    hide ResetWorld, MatchOver;
  }

  lemma OverStays(s: State, t: State)
    requires MatchOver(s) && t.numPlayers == s.numPlayers && SameStocks(s.world.players, t.world.players)
    ensures MatchOver(t)
  {
    var i: Slot :| i < s.numPlayers && s.world.players.At(i).stocks >= ROUNDS_TO_WIN;
    hide Quad.At;
    assert i < t.numPlayers && t.world.players.At(i).stocks >= ROUNDS_TO_WIN;
  }

  lemma WonTick(s: State, inputs: Quad<u16>)
    requires StateOk(s) && s.phase == RoundEnd && MatchOver(s)
    ensures var t := Tick(s, inputs);
      t.phase == RoundEnd && MatchOver(t) && SameStocks(s.world.players, t.world.players)
  {
    hide WorldStep, PhaseStep, Judge, HandsOk, SameStocks, MatchOver;
    PhaseWon(s);
    var s1 := PhaseStep(s);
    WorldStocks(s1.world, inputs, CtxOf(s1));
    var s2 := s1.(world := WorldStep(s1.world, inputs, CtxOf(s1)));
    JudgeShape(s2);
    OverStays(s, Tick(s, inputs));
  }

  /** Once a match is won it stays won, with the same score, for ever. */
  lemma {:induction false} WonForever(s: State, inputs: seq<Quad<u16>>)
    requires StateOk(s) && s.phase == RoundEnd && MatchOver(s)
    ensures var t := After(s, inputs);
      t.phase == RoundEnd && MatchOver(t) && SameStocks(s.world.players, t.world.players)
    decreases |inputs|
  {
    hide Tick, HandsOk, MatchOver, Quad.At;
    if inputs != [] {
      WonTick(s, inputs[0]);
      WonForever(Tick(s, inputs[0]), inputs[1..]);
    }
  }

  // ----------------------------------------------------- from round to round

  /** Between reset and play: the field is empty, match players are up, the other
      slots are out. */
  predicate Lined(p: Player, i: Slot, n: u8) {
    if i < n then p.state != Dead && p.state != Tumble && p.held == 0 && p.live == 0 else p.state == Dead
  }

  predicate LinedUp(s: State) {
    && Sized(s.world) && AllFree(s.world.bombs) && NoBlasts(s.world.blasts)
    && forall i: Slot :: Lined(s.world.players.At(i), i, s.numPlayers) && s.world.players.At(i).held == 0
  }

  lemma LinedOk(s: State)
    requires LinedUp(s)
    ensures StateOk(s)
  {
    hide Quad.At;
  }

  lemma ResetLines(s: State)
    ensures LinedUp(s.(world := ResetWorld(s.world.players, s.arena, s.numPlayers)))
  {
    hide Atan2;
  }

  lemma IdleTurn(p: Player, i: Slot, bs: seq<Bomb>, in': u16, c: Ctx)
    requires !c.play && p.held == 0 && |bs| <= 0xFF && Lined(p, i, c.n)
    ensures var q := PlayerTick(p, i, bs, in', c).0; Lined(q, i, c.n) && q.held == 0
  {
    hide Steer, Fly, Upkeep, Release, Leap;
    if p.state != Dead {
      var r1 := Leap(Steer(p, in', c), in', c);
      SteerControl(p, in', c);
      assert Hands(r1, i, bs, in', c) == (r1, bs) && Lay(r1, i, bs, in', c) == (r1, bs);
      BodyControl(r1, c);
    }
  }

  lemma {:induction false} IdleTurns(ps: Quad<Player>, bs: seq<Bomb>, inputs: Quad<u16>, i: nat, c: Ctx)
    requires |bs| <= 0xFF && !c.play && forall j: Slot :: Lined(ps.At(j), j, c.n) && ps.At(j).held == 0
    ensures var qs := PlayersFrom(ps, bs, inputs, i, c).0;
      forall j: Slot :: Lined(qs.At(j), j, c.n) && qs.At(j).held == 0
    decreases 4 - i
  {
    hide PlayerTick, Quad.At, Lined;
    if i < 4 {
      TickLength(ps.At(i), i, bs, inputs.At(i), c);
      IdleTurn(ps.At(i), i, bs, inputs.At(i), c);
      TurnIdle(ps.At(i), i, bs, inputs.At(i), c);
      IdleTurns(ps.With(i, PlayerTick(ps.At(i), i, bs, inputs.At(i), c).0), bs, inputs, i + 1, c);
    }
  }

  lemma ShiftedLined(ps: Quad<Player>, qs: Quad<Player>, n: u8)
    requires AllShifted(ps, qs) && forall j: Slot :: Lined(ps.At(j), j, n) && ps.At(j).held == 0
    ensures forall j: Slot :: Lined(qs.At(j), j, n) && qs.At(j).held == 0
  {
    hide Quad.At;
  }

  /** Stages 2 to 5 outside play keep everybody lined up. */
  lemma LinedWorld(s: State, inputs: Quad<u16>)
    requires LinedUp(s) && !InPlay(s.phase)
    ensures Sized(s.world) && HandsOk(s.world) && LinedUp(s.(world := WorldStep(s.world, inputs, CtxOf(s))))
  {
    LinedOk(s);
    var c := CtxOf(s);
    hide AllFree, NoBlasts, PlayersFrom, PushFrom, WorldStep, AllShifted, Lined, Quad.At;
    CalmStep(s.world, inputs, c);
    IdleTurns(s.world.players, s.world.bombs, inputs, 0, c);
    var ps := PlayersFrom(s.world.players, s.world.bombs, inputs, 0, c).0;
    PushShifts(ps, 0, 1);
    ShiftedLined(ps, PushFrom(ps, 0, 1), s.numPlayers);
  }

  /** A tick of the countdown before its last. */
  lemma CountTick(s: State, inputs: Quad<u16>)
    requires LinedUp(s) && s.phase == Countdown && s.phaseTimer > 1
    ensures StateOk(s)
    ensures var t := Tick(s, inputs);
      LinedUp(t) && t.phase == Countdown && t.phaseTimer == s.phaseTimer - 1 && t.numPlayers == s.numPlayers
  {
    LinedOk(s);
    var s1 := PhaseStep(s);
    assert s1 == s.(phaseTimer := s.phaseTimer - 1) by { hide ResetWorld, HandsOk; }
    hide PhaseStep, WorldStep, Judge, HandsOk, AllFree, NoBlasts, Lined, Quad.At;
    LinedWorld(s1, inputs);
    JudgeShape(s1.(world := WorldStep(s1.world, inputs, CtxOf(s1))));
  }

  /** A tick of ROUND_END before its last. */
  lemma EndTick(s: State, inputs: Quad<u16>)
    requires StateOk(s) && s.phase == RoundEnd && s.phaseTimer > 1 && !MatchOver(s)
    ensures var t := Tick(s, inputs);
      t.phase == RoundEnd && t.phaseTimer == s.phaseTimer - 1 && !MatchOver(t) && t.numPlayers == s.numPlayers
  {
    hide PhaseStep, WorldStep, Judge, HandsOk, MatchOver, SameStocks;
    EndPhase(s);
    var s1 := PhaseStep(s);
    WorldStocks(s1.world, inputs, CtxOf(s1));
    JudgeShape(s1.(world := WorldStep(s1.world, inputs, CtxOf(s1))));
    var t := Tick(s, inputs);
    if MatchOver(t) {
      StocksSym(s.world.players, t.world.players);
      OverStays(t, s);
    }
  }

  lemma EndPhase(s: State)
    requires s.phase == RoundEnd && s.phaseTimer > 1
    ensures PhaseStep(s) == s.(phaseTimer := s.phaseTimer - 1)
  {
    hide ResetWorld, HandsOk, MatchOver;
  }

  lemma StocksSym(ps: Quad<Player>, qs: Quad<Player>)
    requires SameStocks(ps, qs)
    ensures SameStocks(qs, ps)
  {
  }

  /** The last tick of ROUND_END resets the round. */
  lemma ResetTick(s: State, inputs: Quad<u16>)
    requires StateOk(s) && s.phase == RoundEnd && s.phaseTimer == 1 && !MatchOver(s)
    ensures var t := Tick(s, inputs);
      LinedUp(t) && t.phase == Countdown && t.phaseTimer == COUNTDOWN_TICKS && t.numPlayers == s.numPlayers
  {
    var s1 := PhaseStep(s);
    ResetLines(s);
    assert s1 == s.(world := ResetWorld(s.world.players, s.arena, s.numPlayers), shrink := 0,
                    phase := Countdown, phaseTimer := COUNTDOWN_TICKS) by { hide ResetWorld, HandsOk, MatchOver; }
    hide PhaseStep, WorldStep, Judge, HandsOk, AllFree, NoBlasts, Lined, Quad.At, ResetWorld;
    assert LinedUp(s1);
    LinedWorld(s1, inputs);
    JudgeShape(s1.(world := WorldStep(s1.world, inputs, CtxOf(s1))));
  }

  lemma {:induction false} EndTicks(s: State, inputs: seq<Quad<u16>>)
    requires StateOk(s) && s.phase == RoundEnd && s.phaseTimer > |inputs| && !MatchOver(s)
    ensures var t := After(s, inputs);
      t.phase == RoundEnd && t.phaseTimer == s.phaseTimer - |inputs| && !MatchOver(t) && t.numPlayers == s.numPlayers
    decreases |inputs|
  {
    hide Tick, HandsOk, MatchOver;
    if inputs != [] {
      EndTick(s, inputs[0]);
      EndTicks(Tick(s, inputs[0]), inputs[1..]);
    }
  }

  lemma {:induction false} CountTicks(s: State, inputs: seq<Quad<u16>>)
    requires LinedUp(s) && s.phase == Countdown && s.phaseTimer > |inputs|
    ensures StateOk(s)
    ensures var t := After(s, inputs);
      LinedUp(t) && t.phase == Countdown && t.phaseTimer == s.phaseTimer - |inputs| && t.numPlayers == s.numPlayers
    decreases |inputs|
  {
    LinedOk(s);
    hide Tick, HandsOk, LinedUp;
    if inputs != [] {
      CountTick(s, inputs[0]);
      CountTicks(Tick(s, inputs[0]), inputs[1..]);
    }
  }

  lemma {:induction false} AfterSplit(s: State, a: seq<Quad<u16>>, b: seq<Quad<u16>>)
    requires StateOk(s)
    ensures After(s, a + b) == After(After(s, a), b)
    decreases |a|
  {
    hide Tick, HandsOk;
    if a == [] {
      assert a + b == b;
    } else {
      assert (a + b)[0] == a[0] && (a + b)[1..] == a[1..] + b;
      AfterSplit(Tick(s, a[0]), a[1..], b);
    }
  }

  /** A ROUND_END just entered without a match winner, one tick before play: after
      ROUND_END_TICKS + COUNTDOWN_TICKS - 1 ticks the countdown is on its last
      tick, every bomb is free and every match player is up. */
  lemma RoundToLastCount(s: State, inputs: seq<Quad<u16>>)
    requires StateOk(s) && s.phase == RoundEnd && s.phaseTimer == ROUND_END_TICKS && !MatchOver(s)
    requires |inputs| == ROUND_END_TICKS + COUNTDOWN_TICKS - 1
    ensures var t := After(s, inputs);
      LinedUp(t) && t.phase == Countdown && t.phaseTimer == 1 && t.numPlayers == s.numPlayers
  {
    hide Tick, HandsOk, LinedUp, MatchOver;
    var a, b := inputs[..179], inputs[179..];
    assert inputs == a + b;
    AfterSplit(s, a, b);
    EndTicks(s, a);
    var t := After(s, a);
    ResetTick(t, b[0]);
    CountTicks(Tick(t, b[0]), b[1..]);
  }

  // --------------------------------------------------------- the first tick

  /** Is this the tick on which the player grabs or lays a bomb? */
  predicate Acts(p: Player, in': u16) {
    (BombBit(in') && !BombBit(p.lastInput)) || (SetBit(in') && !SetBit(p.lastInput))
  }

  /** Free, held, or laid this very tick. */
  predicate JustLaid(b: Bomb) {
    b.state == Free || b.state == Held || ((b.state == Settled || b.state == Falling) && b.fuse == FUSE_TICKS)
  }

  predicate AllJustLaid(bs: seq<Bomb>) {
    forall j :: 0 <= j < |bs| ==> JustLaid(bs[j])
  }

  /** cs is bs with at most one free bomb taken, exactly if `taken`. */
  predicate TakesOne(bs: seq<Bomb>, cs: seq<Bomb>, taken: bool) {
    if taken then exists j :: 0 <= j < |bs| && Takes(bs, cs, j) else cs == bs
  }

  predicate Takes(bs: seq<Bomb>, cs: seq<Bomb>, j: int) {
    0 <= j < |bs| && bs[j].state == Free && |cs| == |bs| && cs == bs[j := cs[j]] && cs[j].state != Free
      && JustLaid(cs[j])
  }

  lemma OpeningHands(p: Player, i: Slot, bs: seq<Bomb>, in': u16, c: Ctx)
    requires c.play && p.held == 0 && p.live == 0 && p.state != Dead && p.state != Tumble && |bs| <= 0xFF
      && FreeCount(bs, 0) > 0
    ensures var (q, cs) := Hands(p, i, bs, in', c);
      var grab := BombBit(in') && !BombBit(p.lastInput);
      && TakesOne(bs, cs, grab) && q == p.(held := q.held, live := q.live, timer := q.timer)
      && (grab <==> q.held != 0) && (!grab ==> q == p)
  {
    SomeFree(bs, 0);
    hide BombBit, Release, FreeCount;
    var j := FreeBombFrom(bs, 0).value;
    if BombBit(in') && !BombBit(p.lastInput) {
      assert Takes(bs, Hands(p, i, bs, in', c).1, j);
    }
  }

  lemma OpeningLay(p: Player, i: Slot, bs: seq<Bomb>, in': u16, c: Ctx)
    requires c.play && p.state != Tumble && (p.held == 0 ==> p.live == 0 && FreeCount(bs, 0) > 0)
    ensures var (q, cs) := Lay(p, i, bs, in', c);
      TakesOne(bs, cs, p.held == 0 && SetBit(in') && !SetBit(p.lastInput)) && q == p.(live := q.live)
  {
    hide SetBit, FreeCount, InWalls, Sin, Cos, Mul;
    if p.held == 0 && SetBit(in') && !SetBit(p.lastInput) {
      SomeFree(bs, 0);
      var j := FreeBombFrom(bs, 0).value;
      assert Takes(bs, Lay(p, i, bs, in', c).1, j);
    }
  }

  /** A lined-up player's turn in play takes exactly one free bomb if it acts. */
  lemma OpeningTurn(p: Player, i: Slot, bs: seq<Bomb>, in': u16, c: Ctx)
    requires c.play && Lined(p, i, c.n) && p.held == 0 && |bs| <= 0xFF && FreeCount(bs, 0) > 0
    ensures var (q, cs) := PlayerTick(p, i, bs, in', c);
      TakesOne(bs, cs, i < c.n && Acts(p, in')) && (i < c.n ==> q.state != Dead)
  {
    hide Steer, Leap, Hands, Lay, Fly, Upkeep, FreeCount, BombBit, SetBit, TakesOne, Wait;
    if p.state == Dead {
      TakesNone(bs);
    } else {
      var r1 := Leap(Steer(p, in', c), in', c);
      SteerControl(p, in', c);
      OpeningHands(r1, i, bs, in', c);
      var (r2, bs2) := Hands(r1, i, bs, in', c);
      GrabKeeps(bs, bs2, BombBit(in') && !BombBit(p.lastInput));
      OpeningLay(r2, i, bs2, in', c);
      var (r3, bs3) := Lay(r2, i, bs2, in', c);
      BodyControl(r3, c);
      EitherTakes(bs, bs2, bs3, BombBit(in') && !BombBit(p.lastInput), SetBit(in') && !SetBit(p.lastInput));
    }
  }

  lemma TakesNone(bs: seq<Bomb>)
    ensures TakesOne(bs, bs, false)
  {
  }

  lemma GrabKeeps(bs: seq<Bomb>, cs: seq<Bomb>, grab: bool)
    requires TakesOne(bs, cs, grab)
    ensures |cs| == |bs| && (!grab ==> cs == bs)
  {
  }

  lemma EitherTakes(bs: seq<Bomb>, cs: seq<Bomb>, ds: seq<Bomb>, grab: bool, lay: bool)
    requires TakesOne(bs, cs, grab) && TakesOne(cs, ds, !grab && lay)
    ensures TakesOne(bs, ds, grab || lay)
  {
  }

  lemma TakesEffect(bs: seq<Bomb>, cs: seq<Bomb>, taken: bool)
    requires TakesOne(bs, cs, taken) && AllJustLaid(bs)
    ensures |cs| == |bs| && AllJustLaid(cs) && FreeCount(cs, 0) >= FreeCount(bs, 0) - 1
    ensures AllFree(cs) <==> AllFree(bs) && !taken
  {
    if taken {
      var j :| 0 <= j < |bs| && Takes(bs, cs, j);
      FreeCountUpdate(bs, 0, j, cs[j]);
    }
  }

  predicate NobodyActs(ps: Quad<Player>, inputs: Quad<u16>, n: u8, i: nat) {
    forall j: Slot :: i <= j < n ==> !Acts(ps.At(j), inputs.At(j))
  }

  lemma {:induction false} OpeningTurns(ps: Quad<Player>, bs: seq<Bomb>, inputs: Quad<u16>, i: nat, c: Ctx)
    requires |bs| <= 0xFF && c.play && AllJustLaid(bs) && i <= 4 && FreeCount(bs, 0) >= 4 - i
    requires (forall j: Slot :: ps.At(j).held <= |bs|)
    requires forall j: Slot ::
      (j < c.n ==> ps.At(j).state != Dead) && (i <= j ==> Lined(ps.At(j), j, c.n) && ps.At(j).held == 0)
    ensures var (qs, cs) := PlayersFrom(ps, bs, inputs, i, c);
      && AllJustLaid(cs) && (forall j: Slot :: j < c.n ==> qs.At(j).state != Dead)
      && (AllFree(cs) <==> AllFree(bs) && NobodyActs(ps, inputs, c.n, i))
    decreases 4 - i
  {
    hide PlayerTick, Quad.At, Lined, FreeCount, Acts, TakesOne, AllFree, AllJustLaid;
    if i < 4 {
      TickLength(ps.At(i), i, bs, inputs.At(i), c);
      OpeningTurn(ps.At(i), i, bs, inputs.At(i), c);
      var (p, cs) := PlayerTick(ps.At(i), i, bs, inputs.At(i), c);
      TakesEffect(bs, cs, i < c.n && Acts(ps.At(i), inputs.At(i)));
      OpeningTurns(ps.With(i, p), cs, inputs, i + 1, c);
    }
  }

  lemma {:induction false} CountAllFree(bs: seq<Bomb>, i: nat)
    requires AllFree(bs) && i <= |bs|
    ensures FreeCount(bs, i) == |bs| - i
    decreases |bs| - i
  {
    if i < |bs| {
      CountAllFree(bs, i + 1);
    }
  }

  /** A bomb just laid survives its first bomb stage. */
  lemma JustLaidSurvives(w: World, i: nat, c: Ctx)
    requires i < |w.bombs| && JustLaid(w.bombs[i])
    ensures var d := BombTick(w, i, c).bombs[i]; d.state != Exploding && (d.state == Free <==> w.bombs[i].state == Free)
  {
    hide StandScan, KeepsHands, Sin, Cos, Mul, InWalls, KickScan;
    var b := w.bombs[i];
    if b.state == Settled {
      KickScanStep(b, w.players, c.n, 0);
    }
  }

  predicate Unexploded(bs: seq<Bomb>, cs: seq<Bomb>) {
    |cs| == |bs| && forall j :: 0 <= j < |bs| ==>
         cs[j].state != Exploding && (cs[j].state == Free <==> bs[j].state == Free)
  }

  lemma {:induction false} OpeningBombs(w: World, i: nat, c: Ctx)
    requires (forall j :: i <= j < |w.bombs| ==> JustLaid(w.bombs[j])) && forall j :: 0 <= j < i && j < |w.bombs| ==>
      w.bombs[j].state != Exploding
    ensures Unexploded(w.bombs, BombsFrom(w, i, c).bombs)
    decreases |w.bombs| - i
  {
    hide BombTick, KeepsHands, BombStep, AllShifted;
    if i < |w.bombs| {
      BombTickFrame(w, i, c);
      JustLaidSurvives(w, i, c);
      OpeningBombs(BombTick(w, i, c), i + 1, c);
    }
  }

  lemma {:induction false} DetonateQuiet(w: World, i: nat)
    requires forall j :: 0 <= j < |w.bombs| ==> w.bombs[j].state != Exploding
    ensures DetonateFrom(w, i) == w
    decreases |w.bombs| - i
  {
    hide KeepsHands;
    if i < |w.bombs| {
      DetonateQuiet(w, i + 1);
    }
  }

  lemma UnexplodedFree(bs: seq<Bomb>, cs: seq<Bomb>)
    requires Unexploded(bs, cs)
    ensures AllFree(cs) <==> AllFree(bs)
    ensures forall j :: 0 <= j < |cs| ==> cs[j].state != Exploding
  {
  }

  predicate Up(ps: Quad<Player>, n: u8) {
    forall j: Slot :: j < n ==> ps.At(j).state != Dead
  }

  lemma ShiftedUp(ps: Quad<Player>, qs: Quad<Player>, n: u8)
    requires AllShifted(ps, qs) && Up(ps, n)
    ensures Up(qs, n)
  {
    hide Quad.At;
  }

  lemma OpeningWorld(w: World, inputs: Quad<u16>, c: Ctx)
    requires Sized(w) && HandsOk(w) && AllFree(w.bombs) && NoBlasts(w.blasts) && c.play
    requires forall j: Slot :: Lined(w.players.At(j), j, c.n) && w.players.At(j).held == 0
    ensures var v := WorldStep(w, inputs, c);
      Up(v.players, c.n) && (AllFree(v.bombs) <==> NobodyActs(w.players, inputs, c.n, 0))
  {
    hide AllFree, PlayersFrom, PushFrom, BombsFrom, DetonateFrom, BlastsFrom, AllShifted, BombStep, FreeCount,
      NoBlasts, Unexploded, Quad.At, NobodyActs;
    FreeLaid(w.bombs);
    CountAllFree(w.bombs, 0);
    LinedAlive(w.players, c.n);
    OpeningTurns(w.players, w.bombs, inputs, 0, c);
    var (ps, bs) := PlayersFrom(w.players, w.bombs, inputs, 0, c);
    PushShifts(ps, 0, 1);
    ShiftedUp(ps, PushFrom(ps, 0, 1), c.n);
    var m := World(PushFrom(ps, 0, 1), bs, w.blasts);
    OpeningBombs(m, 0, c);
    BombsFrame(m, 0, c);
    var n := BombsFrom(m, 0, c);
    ShiftedUp(m.players, n.players, c.n);
    UnexplodedFree(m.bombs, n.bombs);
    DetonateQuiet(n, 0);
    BlastsNone(n, 0, c);
  }

  lemma FreeLaid(bs: seq<Bomb>)
    requires AllFree(bs)
    ensures AllJustLaid(bs)
  {
  }

  lemma LinedAlive(ps: Quad<Player>, n: u8)
    requires forall j: Slot :: Lined(ps.At(j), j, n)
    ensures forall j: Slot :: j < n ==> ps.At(j).state != Dead
  {
  }

  lemma {:induction false} CountUp(ps: Quad<Player>, n: u8, i: nat)
    requires Up(ps, n) && i <= n <= 4
    ensures AliveFrom(ps, n, i) == n - i
    decreases 4 - i
  {
    if i < 4 && i < n {
      CountUp(ps, n, i + 1);
    }
  }

  /** The countdown's last tick starts play with every match player up; the field is
      still empty after it exactly if no match player grabs or lays on that tick. */
  lemma PlayTick(s: State, inputs: Quad<u16>)
    requires LinedUp(s) && s.phase == Countdown && s.phaseTimer == 1 && 2 <= s.numPlayers <= 4
    ensures StateOk(s)
    ensures var t := Tick(s, inputs);
      && t.phase == Play && Up(t.world.players, s.numPlayers)
      && (AllFree(t.world.bombs) <==> NobodyActs(s.world.players, inputs, s.numPlayers, 0))
  {
    LinedOk(s);
    hide AllFree, NoBlasts, WorldStep, Judge, HandsOk, Lined, Quad.At, AliveFrom, Up, NobodyActs, PhaseStep;
    LastCount(s);
    var s1 := PhaseStep(s);
    OpeningWorld(s1.world, inputs, CtxOf(s1));
    var s2 := s1.(world := WorldStep(s1.world, inputs, CtxOf(s1)));
    CountUp(s2.world.players, s2.numPlayers, 0);
    JudgeOn(s2);
  }

  lemma LastCount(s: State)
    requires s.phase == Countdown && s.phaseTimer == 1
    ensures PhaseStep(s) == s.(phaseTimer := 0, phase := Play)
  {
    hide ResetWorld, HandsOk;
  }

  lemma JudgeOn(s: State)
    requires AliveFrom(s.world.players, s.numPlayers, 0) > 1
    ensures Judge(s) == s
  {
  }

  /** From a ROUND_END just entered without a winner to the first tick of play, in
      exactly ROUND_END_TICKS + COUNTDOWN_TICKS ticks. */
  lemma RoundToPlay(s: State, inputs: seq<Quad<u16>>)
    requires StateOk(s) && s.phase == RoundEnd && s.phaseTimer == ROUND_END_TICKS && !MatchOver(s)
      && 2 <= s.numPlayers <= 4
    requires |inputs| == ROUND_END_TICKS + COUNTDOWN_TICKS
    ensures var u, t := After(s, inputs[..|inputs| - 1]), After(s, inputs);
      && u.phase == Countdown && LinedUp(u)
      && t.phase == Play && Up(t.world.players, s.numPlayers)
      && (AllFree(t.world.bombs) <==> NobodyActs(u.world.players, inputs[|inputs| - 1], s.numPlayers, 0))
  {
    hide Tick, HandsOk, LinedUp, MatchOver, AllFree, NobodyActs, Up;
    var a, b := inputs[..|inputs| - 1], inputs[|inputs| - 1..];
    assert inputs == a + b && b[1..] == [];
    AfterSplit(s, a, b);
    RoundToLastCount(s, a);
    PlayTick(After(s, a), b[0]);
  }

  /** An empty field at the first tick of play cannot be promised: a set button newly
      pressed on that tick lays a bomb. */
  lemma FieldMayFill(s: State)
    requires LinedUp(s) && s.phase == Countdown && s.phaseTimer == 1 && 2 <= s.numPlayers <= 4
    requires !SetBit(s.world.players.x0.lastInput)
    ensures StateOk(s) && !AllFree(Tick(s, Same(PackInput(0, 0, false, false, true))).world.bombs)
  {
    var in' := PackInput(0, 0, false, false, true);
    InputRoundTrip(0, 0, false, false, true);
    hide LinedUp, AllFree, Tick, PackInput, HandsOk;
    PlayTick(s, Same(in'));
    assert Acts(s.world.players.At(0), Same(in').At(0));
  }

  lemma TurnHears(p: Player, i: Slot, bs: seq<Bomb>, in': u16, c: Ctx)
    requires p.held <= |bs| <= 0xFF
    ensures PlayerTick(p, i, bs, in', c).0.lastInput == in'
  {
    hide Steer, Leap, Hands, Lay, Fly, Upkeep, Atan2;
    TickLength(p, i, bs, in', c);
  }

  lemma {:induction false} PlayersHear(ps: Quad<Player>, bs: seq<Bomb>, inputs: Quad<u16>, i: nat, c: Ctx, k: Slot)
    requires |bs| <= 0xFF && forall j: Slot :: ps.At(j).held <= |bs|
    ensures var q := PlayersFrom(ps, bs, inputs, i, c).0.At(k);
      if k < i then q == ps.At(k) else q.lastInput == inputs.At(k)
    decreases 4 - i
  {
    hide PlayerTick, Quad.At;
    if i < 4 {
      TickLength(ps.At(i), i, bs, inputs.At(i), c);
      TurnHears(ps.At(i), i, bs, inputs.At(i), c);
      var (p, cs) := PlayerTick(ps.At(i), i, bs, inputs.At(i), c);
      PlayersHear(ps.With(i, p), cs, inputs, i + 1, c, k);
    }
  }

  /** A tick of the countdown before its last leaves each input behind it. */
  lemma CountHears(s: State, inputs: Quad<u16>, k: Slot)
    requires LinedUp(s) && s.phase == Countdown && s.phaseTimer > 1
    ensures StateOk(s) && Tick(s, inputs).world.players.At(k).lastInput == inputs.At(k)
  {
    LinedOk(s);
    var s1 := PhaseStep(s);
    assert s1 == s.(phaseTimer := s.phaseTimer - 1) by { hide ResetWorld, HandsOk; }
    hide PhaseStep, WorldStep, Judge, HandsOk, AllFree, NoBlasts, Lined, Quad.At, PlayersFrom, PushFrom, AllShifted;
    var c := CtxOf(s1);
    CalmStep(s1.world, inputs, c);
    JudgeShape(s1.(world := WorldStep(s1.world, inputs, c)));
    PlayersHear(s1.world.players, s1.world.bombs, inputs, 0, c, k);
    var ps := PlayersFrom(s1.world.players, s1.world.bombs, inputs, 0, c).0;
    PushShifts(ps, 0, 1);
    ShiftedInput(ps, PushFrom(ps, 0, 1), k);
  }

  lemma ShiftedInput(ps: Quad<Player>, qs: Quad<Player>, k: Slot)
    requires AllShifted(ps, qs)
    ensures qs.At(k).lastInput == ps.At(k).lastInput
  {
    hide Quad.At;
  }

  /** And the opening of every match shows it: after the countdown, whatever was pressed
      meanwhile, player 0 presses the set button on the tick that starts play. */
  lemma OpeningMayFill(arena: ArenaId, n: u8, seed: bv32, before: seq<Quad<u16>>)
    requires 2 <= n <= 4 && |before| == COUNTDOWN_TICKS - 1 && !SetBit(before[|before| - 1].x0)
    ensures var t := After(Init(arena, n, seed), before + [Same(PackInput(0, 0, false, false, true))]);
      t.phase == Play && !AllFree(t.world.bombs)
  {
    hide Tick, HandsOk, LinedUp, PackInput, SetBit, AllFree;
    var s0 := Init(arena, n, seed);
    var press := Same(PackInput(0, 0, false, false, true));
    var a, b := before[..|before| - 1], [before[|before| - 1]];
    assert before == a + b;
    InitLines(arena, n, seed);
    CountTicks(s0, a);
    AfterSplit(s0, a, b);
    CountTick(After(s0, a), b[0]);
    CountHears(After(s0, a), b[0], 0);
    assert b[1..] == [];
    var s := After(s0, before);
    assert s == Tick(After(s0, a), b[0]);
    AfterSplit(s0, before, [press]);
    var last := [press];
    assert last[1..] == [];
    FieldMayFill(s);
    PlayTick(s, press);
  }

  lemma InitLines(arena: ArenaId, n: u8, seed: bv32)
    ensures var s := Init(arena, n, seed);
      LinedUp(s) && s.phase == Countdown && s.phaseTimer == COUNTDOWN_TICKS && s.numPlayers == n
  {
    ResetLines(Init(arena, n, seed));
    hide Atan2;
  }
}
