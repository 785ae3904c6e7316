// What each stage may change, stated once and used by every invariant: players
// are only shifted by pushouts, bombs move along their life cycle.

module ArenaFrames {
  import opened Basics
  import opened ArenaMath
  import opened ArenaTypes
  import opened ArenaSim

  // ---------------------------------------------------------------- players

  /** q is p moved in the plane. */
  predicate Shifted(p: Player, q: Player) {
    q == p.(pos := p.pos.(x := q.pos.x, z := q.pos.z))
  }

  predicate AllShifted(ps: Quad<Player>, qs: Quad<Player>) {
    forall i: Slot :: Shifted(ps.At(i), qs.At(i))
  }

  lemma ShiftedTrans(ps: Quad<Player>, qs: Quad<Player>, rs: Quad<Player>)
    requires AllShifted(ps, qs) && AllShifted(qs, rs)
    ensures AllShifted(ps, rs)
  {
    hide Quad.At;
  }

  lemma PairShifts(ps: Quad<Player>, a: Slot, b: Slot)
    requires a != b
    ensures AllShifted(ps, PushPair(ps, a, b))
  {
    hide Len2, Mul, Div, Quad.At, Quad.With;
  }

  lemma {:induction false} PushShifts(ps: Quad<Player>, a: nat, b: nat)
    requires a < b
    ensures AllShifted(ps, PushFrom(ps, a, b))
    decreases 4 - a, 4 - b
  {
    hide PushPair, Shifted;
    if a >= 4 {
      ShiftedRefl(ps);
    } else if b >= 4 {
      PushShifts(ps, a + 1, a + 2);
    } else {
      PairShifts(ps, a, b);
      PushShifts(PushPair(ps, a, b), a, b + 1);
      ShiftedTrans(ps, PushPair(ps, a, b), PushFrom(ps, a, b));
    }
  }

  lemma ShiftedRefl(ps: Quad<Player>)
    ensures AllShifted(ps, ps)
  {
  }

  lemma {:induction false} StandShifts(b: Bomb, ps: Quad<Player>, n: u8, pj: nat)
    ensures AllShifted(ps, StandScan(b, ps, n, pj))
    decreases 4 - pj
  {
    hide StandOff;
    ShiftedRefl(ps);
    if pj < 4 && pj < n {
      var p := ps.At(pj);
      if p.state == Dead || b.bounced == pj + 1 || !OnGround(p) {
        StandShifts(b, ps, n, pj + 1);
      } else {
        var qs := ps.With(pj, p.(pos := StandOff(p.pos, b.pos)));
        StandsLevel(p.pos, b.pos);
        assert AllShifted(ps, qs);
        StandShifts(b, qs, n, pj + 1);
        ShiftedTrans(ps, qs, StandScan(b, qs, n, pj + 1));
      }
    }
  }

  lemma StandsLevel(pos: Vec, b: Vec)
    ensures StandOff(pos, b).y == pos.y
  {
  }

  // ------------------------------------------------------------------ bombs

  /** How one bomb stage may move a bomb along its life. */
  predicate BombStep(b: Bomb, d: Bomb) {
    && d.owner == b.owner
    && match b.state
       case Free => d == b
       case Held => d == b.(pos := d.pos)
       case Exploding => d == b
       case Airborne => d.state == Exploding || d.state == Airborne
       case Falling => d.state == Exploding || ((d.state == Falling || d.state == Settled) && d.fuse == b.fuse - 1
         && d.fuse >= 1)
       case Sliding => d.state == Exploding || (d.state == Sliding && d.fuse == b.fuse - 1 && d.fuse >= 1)
       case Settled =>
         d.state == Exploding || (d.state == Settled && d.fuse == b.fuse - 1 && d.fuse >= 1)
         || (d.state == Sliding && d.fuse == b.fuse)
  }

  lemma FlyStep(b: Bomb, i: nat, w: World, c: Ctx)
    requires b.state == Airborne
    ensures BombStep(b, FlyBomb(b, i, w, c))
  {
    hide HitsPlayer, HitsBomb, Collide;
  }

  lemma FallStep(b: Bomb, ps: Quad<Player>, c: Ctx)
    requires b.state == Falling
    ensures BombStep(b, FallBomb(b, ps, c))
  {
    hide Sin, Cos, Mul, InWalls;
  }

  lemma {:induction false} SlideScanStep(b: Bomb, ps: Quad<Player>, n: u8, pj: nat)
    requires b.state == Sliding
    ensures var d := SlideScan(b, ps, n, pj);
      d.owner == b.owner && d.fuse == b.fuse && (d.state == Sliding || d.state == Exploding) && d.pos == b.pos
        && d.vel == b.vel
    decreases 4 - pj
  {
    hide Len2;
    if pj < 4 && pj < n {
      SlideScanStep(b, ps, n, pj + 1);
      SlideScanStep(b.(bounced := 0), ps, n, pj + 1);
    }
  }

  lemma SlideStep(b: Bomb, i: nat, w: World, c: Ctx)
    requires b.state == Sliding
    ensures BombStep(b, SlideBomb(b, i, w, c))
  {
    hide SlideScan, SlidesIntoBomb, Collide;
    SlideScanStep(b.(pos := b.pos.(x := b.pos.x + b.vel.x, z := b.pos.z + b.vel.z)), w.players, c.n, 0);
  }

  lemma {:induction false} KickScanStep(b: Bomb, ps: Quad<Player>, n: u8, pj: nat)
    requires b.state == Settled
    ensures var d := KickScan(b, ps, n, pj);
      d.owner == b.owner && d.fuse == b.fuse && d.attach == b.attach
      && if d.state == Settled then d == b.(bounced := d.bounced) else d.state == Sliding && d.pos == b.pos.(y := 0)
    decreases 4 - pj
  {
    hide Len2, Sin, Cos, Mul;
    if pj < 4 && pj < n {
      KickScanStep(b, ps, n, pj + 1);
      KickScanStep(b.(bounced := 0), ps, n, pj + 1);
    }
  }

  /** Stage 4 for one bomb touches that bomb alone, and shifts players. */
  lemma BombTickFrame(w: World, i: nat, c: Ctx)
    requires i < |w.bombs|
    ensures var v := BombTick(w, i, c);
      && AllShifted(w.players, v.players) && v.blasts == w.blasts && |v.bombs| == |w.bombs|
      && (forall j :: 0 <= j < |w.bombs| && j != i ==> v.bombs[j] == w.bombs[j])
      && BombStep(w.bombs[i], v.bombs[i])
  {
    var b := w.bombs[i];
    ShiftedRefl(w.players);
    hide FlyBomb, FallBomb, SlideBomb, KickScan, StandScan, AllShifted, KeepsHands;
    match b.state {
      case Airborne => FlyStep(b, i, w, c);
      case Falling => FallStep(b, w.players, c);
      case Sliding => SlideStep(b, i, w, c);
      case Settled =>
        KickScanStep(b, w.players, c.n, 0);
        StandShifts(KickScan(b, w.players, c.n, 0), w.players, c.n, 0);
      case _ =>
    }
  }

  /** Stage 4 as a whole: every bomb takes one step. */
  lemma {:induction false} BombsFrame(w: World, i: nat, c: Ctx)
    ensures var v := BombsFrom(w, i, c);
      && AllShifted(w.players, v.players) && v.blasts == w.blasts && |v.bombs| == |w.bombs|
      && (forall j :: 0 <= j < |w.bombs| ==> if i <= j then BombStep(w.bombs[j], v.bombs[j])
         else v.bombs[j] == w.bombs[j])
    decreases |w.bombs| - i
  {
    hide BombTick, BombStep, AllShifted, KeepsHands;
    if i >= |w.bombs| {
      ShiftedRefl(w.players);
    } else {
      BombTickFrame(w, i, c);
      BombsFrame(BombTick(w, i, c), i + 1, c);
      ShiftedTrans(w.players, BombTick(w, i, c).players, BombsFrom(w, i, c).players);
    }
  }
}
