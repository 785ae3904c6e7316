// How soon the same player can be hit again.

module ArenaHits {
  import opened Basics
  import opened ArenaMath
  import opened ArenaTypes
  import opened ArenaSim
  import opened ArenaFrames
  import opened ArenaOwn
  import opened ArenaBounds
  import opened ArenaMatch

  // -------------------------------------------------------- a turn's clockwork

  /** What a turn does to state, timer and hand, as far as hits care. */
  predicate Clockwork(p: Player, q: Player, play: bool) {
    match p.state
    case Dead =>
      if !play then q.state == Dead && q.timer == p.timer
      else if p.timer > 1 then q.state == Dead && q.timer == p.timer - 1
      else q.state != Dead && q.timer == INVULN_TICKS && q.held == 0
    case Tumble =>
      && q.timer == (if p.timer > 0 then p.timer - 1 else 0)
      && (q.state == Tumble || (q.state != Dead && q.timer <= INVULN_TICKS))
      && (p.held == 0 ==> q.held == 0)
    case _ =>
      q.state != Dead && q.state != Tumble && (p.held == 0 && q.held == 0 ==> p.timer - 1 <= q.timer)
  }

  lemma HandsClock(p: Player, i: Slot, bs: seq<Bomb>, in': u16, c: Ctx)
    requires p.held <= |bs| <= 0xFF
    ensures var q := Hands(p, i, bs, in', c).0;
      && q.state == p.state && (p.held == 0 && q.held == 0 ==> q.timer == p.timer) && (p.state == Tumble ==> q == p)
  {
    HandsStance(p, i, bs, in', c);
    hide BombBit, Release;
  }

  lemma BodyClock(p: Player, c: Ctx)
    ensures var q := Upkeep(Fly(p, c));
      && q.held == p.held
      && (p.state == Tumble ==>
            && q.timer == (if p.timer > 0 then p.timer - 1 else 0)
            && (q.state == Tumble || (q.state == Idle && q.timer <= INVULN_TICKS)))
      && (p.state != Tumble && p.state != Dead ==>
            q.state != Tumble && q.state != Dead && (p.held == 0 ==> p.timer - 1 <= q.timer))
  {
    hide Collide, Skid, Len2;
  }

  lemma TurnClock(p: Player, i: Slot, bs: seq<Bomb>, in': u16, c: Ctx)
    requires p.held <= |bs| <= 0xFF
    ensures Clockwork(p, PlayerTick(p, i, bs, in', c).0, c.play)
  {
    hide Steer, Leap, Hands, Lay, Fly, Upkeep, Atan2;
    TickLength(p, i, bs, in', c);
    if p.state != Dead {
      var r1 := Leap(Steer(p, in', c), in', c);
      SteerControl(p, in', c);
      HandsClock(r1, i, bs, in', c);
      var (r2, bs2) := Hands(r1, i, bs, in', c);
      LayStance(r2, i, bs2, in', c);
      LayClock(r2, i, bs2, in', c);
      BodyClock(Lay(r2, i, bs2, in', c).0, c);
    }
  }

  lemma LayClock(p: Player, i: Slot, bs: seq<Bomb>, in': u16, c: Ctx)
    ensures var q := Lay(p, i, bs, in', c).0; q == p.(live := q.live)
  {
    hide Laid, Lays;
  }

  lemma {:induction false} PlayersClock(ps: Quad<Player>, bs: seq<Bomb>, inputs: Quad<u16>, i: nat, c: Ctx, k: Slot)
    requires |bs| <= 0xFF && forall j: Slot :: ps.At(j).held <= |bs|
    ensures var qs := PlayersFrom(ps, bs, inputs, i, c).0;
      if k < i then qs.At(k) == ps.At(k) else Clockwork(ps.At(k), qs.At(k), c.play)
    decreases 4 - i
  {
    hide PlayerTick, Quad.At, Clockwork;
    if i < 4 {
      TickLength(ps.At(i), i, bs, inputs.At(i), c);
      TurnClock(ps.At(i), i, bs, inputs.At(i), c);
      var (p, cs) := PlayerTick(ps.At(i), i, bs, inputs.At(i), c);
      PlayersClock(ps.With(i, p), cs, inputs, i + 1, c, k);
    }
  }

  // -------------------------------------------------------------- the damage

  predicate SameVitals(p: Player, q: Player) {
    q.state == p.state && q.timer == p.timer && q.hp == p.hp && q.held == p.held
  }

  /** Untouched, or struck once while open to it. */
  predicate Wounded(p: Player, q: Player) {
    || SameVitals(p, q)
    || (Exposed(p) && q.hp == p.hp - 1 && q.held == 0
        && ((q.state == Tumble && q.timer == TUMBLE_TICKS + INVULN_TICKS)
           || (q.state == Dead && q.timer == RESPAWN_TICKS)))
  }

  predicate AllWounded(ps: Quad<Player>, qs: Quad<Player>) {
    forall i: Slot :: Wounded(ps.At(i), qs.At(i))
  }

  lemma WoundedOnce(ps: Quad<Player>, qs: Quad<Player>, rs: Quad<Player>)
    requires AllWounded(ps, qs) && AllWounded(qs, rs)
    ensures AllWounded(ps, rs)
  {
    hide Quad.At;
  }

  lemma WoundedRefl(ps: Quad<Player>)
    ensures AllWounded(ps, ps)
  {
  }

  lemma DamageWounds(w: World, center: Vec, radius: int, i: Slot)
    requires w.players.At(i).held <= |w.bombs|
    ensures AllWounded(w.players, Damage(w, center, radius, i).players)
  {
    hide InReach, Quad.At, Len2, Div, Mul;
  }

  lemma {:induction false} DamageAllWounds(w: World, center: Vec, radius: int, n: u8, i: nat)
    requires HandsOk(w)
    ensures AllWounded(w.players, DamageFrom(w, center, radius, n, i).players)
    decreases 4 - i
  {
    hide AllWounded, Damage;
    if i < 4 && i < n {
      DamageHands(w, center, radius, i);
      DamageWounds(w, center, radius, i);
      var v := Damage(w, center, radius, i);
      DamageAllWounds(v, center, radius, n, i + 1);
      WoundedOnce(w.players, v.players, DamageFrom(v, center, radius, n, i + 1).players);
    } else {
      WoundedRefl(w.players);
    }
  }

  lemma {:induction false} BlastsWound(w: World, j: nat, c: Ctx)
    requires HandsOk(w)
    ensures AllWounded(w.players, BlastsFrom(w, j, c).players)
    decreases |w.blasts| - j
  {
    hide DamageFrom, ChainFrom, Radius, Quad.At, AllWounded;
    WoundedRefl(w.players);
    if j < |w.blasts| {
      var l := w.blasts[j];
      if l.ttl != 0 {
        var g := Grown(l);
        DamageAllWounds(w.(blasts := w.blasts[j := g], bombs := ChainFrom(w.bombs, g.center, Radius(g), 0)),
                        g.center, Radius(g), c.n, 0);
      }
      BlastsWound(BlastTick(w, j, c), j + 1, c);
      WoundedOnce(w.players, BlastTick(w, j, c).players, BlastsFrom(w, j, c).players);
    }
  }

  predicate AllSame(ps: Quad<Player>, qs: Quad<Player>) {
    forall i: Slot :: SameVitals(ps.At(i), qs.At(i))
  }

  lemma ShiftedVitals(ps: Quad<Player>, qs: Quad<Player>)
    requires AllShifted(ps, qs)
    ensures AllSame(ps, qs)
  {
    hide Quad.At;
  }

  lemma {:induction false} DetonateVitals(w: World, i: nat)
    ensures AllSame(w.players, DetonateFrom(w, i).players)
    decreases |w.bombs| - i
  {
    hide FreeBlastFrom, KeepsHands, Quad.At;
    if i < |w.bombs| {
      if w.bombs[i].state == Exploding {
        DetonateVitals(Detonate(w, i), i + 1);
      } else {
        DetonateVitals(w, i + 1);
      }
    }
  }

  lemma SameThenWounded(ps: Quad<Player>, qs: Quad<Player>, rs: Quad<Player>)
    requires AllSame(ps, qs) && AllWounded(qs, rs)
    ensures AllWounded(ps, rs)
  {
    hide Quad.At;
  }

  lemma SameTrans(ps: Quad<Player>, qs: Quad<Player>, rs: Quad<Player>)
    requires AllSame(ps, qs) && AllSame(qs, rs)
    ensures AllSame(ps, rs)
  {
    hide Quad.At;
  }

  /** The players after their turns in this tick. */
  function AfterTurns(s: State, inputs: Quad<u16>): Quad<Player>
    requires StateOk(s)
  {
    var s1 := PhaseStep(s);
    PlayersFrom(s1.world.players, s1.world.bombs, inputs, 0, CtxOf(s1)).0
  }

  lemma WorldWounds(w: World, inputs: Quad<u16>, c: Ctx)
    requires Sized(w) && HandsOk(w)
    ensures AllWounded(PlayersFrom(w.players, w.bombs, inputs, 0, c).0, WorldStep(w, inputs, c).players)
  {
    hide AllWounded, AllSame, PlayersFrom, PushFrom, BombsFrom, DetonateFrom, BlastsFrom, AllShifted, BombStep;
    var (ps, bs) := PlayersFrom(w.players, w.bombs, inputs, 0, c);
    PushShifts(ps, 0, 1);
    ShiftedVitals(ps, PushFrom(ps, 0, 1));
    var m := World(PushFrom(ps, 0, 1), bs, w.blasts);
    BombsFrame(m, 0, c);
    var n := BombsFrom(m, 0, c);
    ShiftedVitals(m.players, n.players);
    SameTrans(ps, m.players, n.players);
    DetonateVitals(n, 0);
    var o := DetonateFrom(n, 0);
    SameTrans(ps, n.players, o.players);
    BlastsWound(o, 0, c);
    SameThenWounded(ps, o.players, WorldStep(w, inputs, c).players);
  }

  // --------------------------------------------------------------- the shield

  /** Player i loses health in this tick. */
  predicate Hit(s: State, inputs: Quad<u16>, i: Slot)
    requires StateOk(s)
  {
    Tick(s, inputs).world.players.At(i).hp != AfterTurns(s, inputs).At(i).hp
  }

  /** Ticks before a further hit can land, if bombs may be grabbed in between. */
  function Guard(p: Player): int {
    if p.state == Dead then p.timer + 1
    else if p.state == Tumble && p.timer > INVULN_TICKS then p.timer - INVULN_TICKS + 1
    else 1
  }

  /** The same if no bomb is grabbed: grabbing restarts the timer as a hold counter. */
  function Grace(p: Player): int {
    if p.state == Dead then Max(p.timer, 1) + INVULN_TICKS
    else if p.held != 0 then 1
    else Max(p.timer, 1)
  }

  function Shield(s: State, i: Slot, grabs: bool): int {
    var p := s.world.players.At(i);
    if s.phase == Countdown then s.phaseTimer
    else Min(if grabs then Guard(p) else Grace(p), COUNTDOWN_TICKS)
  }

  predicate EmptyHanded(s: State, inputs: Quad<u16>, i: Slot)
    requires StateOk(s)
  {
    AfterTurns(s, inputs).At(i).held == 0
  }

  lemma ClockThenWound(p: Player, m: Player, q: Player, play: bool, grabs: bool)
    requires Clockwork(p, m, play) && Wounded(m, q) && (grabs || m.held == 0)
    requires p.state == Tumble ==> p.held == 0
    ensures var before, after := if grabs then Guard(p) else Grace(p), if grabs then Guard(q) else Grace(q);
      && after >= before - 1 && after >= 1
      && (q.hp != m.hp ==> before <= 1 && after >= (if grabs then TUMBLE_TICKS + 1 else TUMBLE_TICKS + INVULN_TICKS))
  {
  }

  lemma JudgeVitals(s: State)
    ensures AllSame(s.world.players, Judge(s).world.players)
  {
    hide AliveFrom, LastAlive, Quad.At;
  }

  lemma JudgePhase(s: State)
    ensures Judge(s).phase == s.phase || Judge(s).phase == RoundEnd
    ensures Judge(s).phase == Countdown ==> Judge(s).phaseTimer == s.phaseTimer
    ensures s.phase == Countdown ==> Judge(s).phase == Countdown
  {
    hide AliveFrom, LastAlive;
  }

  /** The players of a whole tick, from turns to round end. */
  lemma TickWounds(s: State, inputs: Quad<u16>)
    requires StateOk(s)
    ensures AllWounded(AfterTurns(s, inputs), Tick(s, inputs).world.players)
  {
    hide AllWounded, AllSame, PhaseStep, WorldStep, Judge, PlayersFrom, HandsOk;
    var s1 := PhaseStep(s);
    WorldWounds(s1.world, inputs, CtxOf(s1));
    var s2 := s1.(world := WorldStep(s1.world, inputs, CtxOf(s1)));
    JudgeVitals(s2);
    WoundedThenSame(AfterTurns(s, inputs), s2.world.players, Tick(s, inputs).world.players);
  }

  lemma WoundedThenSame(ps: Quad<Player>, qs: Quad<Player>, rs: Quad<Player>)
    requires AllWounded(ps, qs) && AllSame(qs, rs)
    ensures AllWounded(ps, rs)
  {
    hide Quad.At;
  }

  lemma PhaseWorld(s: State)
    ensures var t := PhaseStep(s);
      && (t.world == s.world || t.phase == Countdown)
      && (s.phase == Countdown && s.phaseTimer > 1 ==> t == s.(phaseTimer := s.phaseTimer - 1))
      && (s.phase != Countdown && t.phase == Countdown ==> t.phaseTimer == COUNTDOWN_TICKS)
      && (s.phase == Countdown && s.phaseTimer <= 1 ==> t.phase == Play)
      && (s.phase != Countdown && t.phase != Countdown ==> t.world == s.world)
  {
    hide ResetWorld, MatchOver, HandsOk;
  }

  lemma CalmHit(s: State, inputs: Quad<u16>, i: Slot)
    requires OwnInv(s) && StateOk(s) && PhaseStep(s).phase == Countdown
    ensures !Hit(s, inputs, i)
  {
    hide OwnOk, PhaseStep, WorldStep, PlayersFrom, PushFrom, Judge, HandsOk, AllSame, AllFree, NoBlasts, AllShifted;
    PhaseOwn(s);
    var s1 := PhaseStep(s);
    CalmStep(s1.world, inputs, CtxOf(s1));
    var ps := AfterTurns(s, inputs);
    PushShifts(ps, 0, 1);
    ShiftedVitals(ps, PushFrom(ps, 0, 1));
    var s2 := s1.(world := WorldStep(s1.world, inputs, CtxOf(s1)));
    JudgeVitals(s2);
    SameTrans(ps, s2.world.players, Tick(s, inputs).world.players);
    SameHp(ps, Tick(s, inputs).world.players, i);
  }

  lemma SameHp(ps: Quad<Player>, qs: Quad<Player>, i: Slot)
    requires AllSame(ps, qs)
    ensures qs.At(i).hp == ps.At(i).hp
  {
  }

  lemma TumbleEmpty(s: State, i: Slot)
    requires OwnInv(s)
    ensures s.world.players.At(i).state == Tumble ==> s.world.players.At(i).held == 0
  {
    assert SlotOk(s.world.players.At(i), i, s.world.bombs);
  }

  /** Outside the countdown the shield follows the player's clock. */
  lemma TickGuard(s: State, inputs: Quad<u16>, i: Slot, grabs: bool)
    requires OwnInv(s) && StateOk(s) && (grabs || EmptyHanded(s, inputs, i))
    requires PhaseStep(s).world == s.world
    ensures var p, q := s.world.players.At(i), Tick(s, inputs).world.players.At(i);
      var before, after := if grabs then Guard(p) else Grace(p), if grabs then Guard(q) else Grace(q);
      && after >= before - 1 && after >= 1
      && (Hit(s, inputs, i) ==> before <= 1 && after >= (if grabs then TUMBLE_TICKS + 1
         else TUMBLE_TICKS + INVULN_TICKS))
  {
    hide PhaseStep, Tick, PlayersFrom, HandsOk, Clockwork, Wounded, Quad.At, OwnInv, Guard, Grace;
    var s1 := PhaseStep(s);
    TumbleEmpty(s, i);
    HandsInside(s);
    PlayersClock(s1.world.players, s1.world.bombs, inputs, 0, CtxOf(s1), i);
    TickWounds(s, inputs);
    ClockThenWound(s.world.players.At(i), AfterTurns(s, inputs).At(i), Tick(s, inputs).world.players.At(i),
      CtxOf(s1).play, grabs);
  }

  lemma HandsInside(s: State)
    requires StateOk(s)
    ensures forall j: Slot :: s.world.players.At(j).held <= |s.world.bombs|
  {
  }

  /** One tick wears the shield down by at most one; a hit needs it worn out and
      renews it. */
  lemma TickShield(s: State, inputs: Quad<u16>, i: Slot, grabs: bool)
    requires OwnInv(s) && (grabs || (StateOk(s) && EmptyHanded(s, inputs, i)))
    ensures StateOk(s) && OwnInv(Tick(s, inputs))
    ensures Shield(Tick(s, inputs), i, grabs) >= Shield(s, i, grabs) - 1
    ensures Hit(s, inputs, i) ==>
      Shield(s, i, grabs) <= 1 && Shield(Tick(s, inputs), i, grabs) >= (if grabs then TUMBLE_TICKS + 1
        else TUMBLE_TICKS + INVULN_TICKS)
  {
    OwnState(s);
    TickOwn(s, inputs);
    PhaseWorld(s);
    hide OwnInv, PhaseStep, WorldStep, Judge, HandsOk, Hit, Guard, Grace, Quad.At;
    var s1 := PhaseStep(s);
    var s2 := s1.(world := WorldStep(s1.world, inputs, CtxOf(s1)));
    JudgePhase(s2);
    if s1.phase == Countdown {
      CalmHit(s, inputs, i);
    } else {
      TickGuard(s, inputs, i, grabs);
    }
  }

  lemma {:induction false} ShieldHolds(s: State, inputs: seq<Quad<u16>>, i: Slot, grabs: bool)
    requires OwnInv(s) && StateOk(s)
    requires grabs || forall k :: 0 <= k < |inputs| ==> EmptyHanded(After(s, inputs[..k]), inputs[k], i)
    ensures OwnInv(After(s, inputs)) && Shield(After(s, inputs), i, grabs) >= Shield(s, i, grabs) - |inputs|
    decreases |inputs|
  {
    hide OwnInv, Tick, Shield, EmptyHanded, HandsOk;
    if inputs != [] {
      if !grabs {
        assert inputs[..0] == [];
        assert EmptyHanded(After(s, inputs[..0]), inputs[0], i);
      }
      TickShield(s, inputs[0], i, grabs);
      var t := Tick(s, inputs[0]);
      forall k | !grabs && 0 <= k < |inputs[1..]| ensures EmptyHanded(After(t, inputs[1..][..k]), inputs[1..][k], i) {
        assert inputs[..k + 1][0] == inputs[0] && inputs[..k + 1][1..] == inputs[1..][..k];
        assert EmptyHanded(After(s, inputs[..k + 1]), inputs[k + 1], i);
      }
      ShieldHolds(t, inputs[1..], i, grabs);
    }
  }

  /** A hit renews the shield whatever the player held. */
  lemma HitRenews(s: State, inputs: Quad<u16>, i: Slot)
    requires OwnInv(s) && StateOk(s) && Hit(s, inputs, i)
    ensures Shield(Tick(s, inputs), i, false) >= TUMBLE_TICKS + INVULN_TICKS
  {
    hide OwnInv, PhaseStep, WorldStep, Judge, HandsOk, PlayersFrom, Quad.At;
    if PhaseStep(s).phase == Countdown {
      CalmHit(s, inputs, i);
    } else {
      var s1 := PhaseStep(s);
      JudgePhase(s1.(world := WorldStep(s1.world, inputs, CtxOf(s1))));
      TickWounds(s, inputs);
    }
  }

  /** Two hits on one player, on the first and on the last tick of a stretch. */
  predicate HitTwice(s: State, inputs: seq<Quad<u16>>, i: Slot)
    requires StateOk(s)
  {
    && |inputs| >= 2 && Hit(s, inputs[0], i)
    && Hit(After(Tick(s, inputs[0]), inputs[1..|inputs| - 1]), inputs[|inputs| - 1], i)
  }

  /** Two hits on the same player are at least TUMBLE_TICKS + 1 ticks apart. */
  lemma HitsAreSpaced(s: State, inputs: seq<Quad<u16>>, i: Slot)
    requires OwnInv(s) && StateOk(s) && HitTwice(s, inputs, i)
    ensures |inputs| - 1 >= TUMBLE_TICKS + 1
  {
    hide OwnInv, Tick, Hit, HandsOk, Shield;
    TickShield(s, inputs[0], i, true);
    var t, mid := Tick(s, inputs[0]), inputs[1..|inputs| - 1];
    ShieldHolds(t, mid, i, true);
    TickShield(After(t, mid), inputs[|inputs| - 1], i, true);
  }

  /** If the player grabs no bomb in between, they are at least TUMBLE_TICKS +
      INVULN_TICKS apart. */
  lemma HitsAreSpacedWithoutGrab(s: State, inputs: seq<Quad<u16>>, i: Slot)
    requires OwnInv(s) && StateOk(s) && HitTwice(s, inputs, i)
    requires forall k :: 0 <= k < |inputs| - 1 ==>
      EmptyHanded(After(Tick(s, inputs[0]), inputs[1..][..k]), inputs[1..][k], i)
    ensures |inputs| - 1 >= TUMBLE_TICKS + INVULN_TICKS
  {
    hide OwnInv, Tick, Hit, HandsOk, Shield, EmptyHanded;
    HitRenews(s, inputs[0], i);
    TickOwn(s, inputs[0]);
    var t, mid := Tick(s, inputs[0]), inputs[1..|inputs| - 1];
    forall k | 0 <= k < |mid| ensures EmptyHanded(After(t, mid[..k]), mid[k], i) {
      assert inputs[1..][..k] == mid[..k];
    }
    ShieldHolds(t, mid, i, false);
    assert inputs[1..][..|inputs| - 2] == mid;
    TickShield(After(t, mid), inputs[|inputs| - 1], i, false);
  }
}
