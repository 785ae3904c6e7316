// Who owns which bomb: the counters, the hands and the table always agree.

module ArenaOwn {
  import opened Basics
  import opened ArenaMath
  import opened ArenaTypes
  import opened ArenaSim
  import opened ArenaFrames

  // -------------------------------------------------------------- counting

  function Mine(b: Bomb, i: Slot): nat {
    if b.state != Free && b.owner == i then 1 else 0
  }

  /** How many of the first n bombs slot i owns. */
  function Owned(bs: seq<Bomb>, i: Slot, n: nat): nat
    requires n <= |bs|
  {
    if n == 0 then 0 else Owned(bs, i, n - 1) + Mine(bs[n - 1], i)
  }

  lemma {:induction false} OwnedUpdate(bs: seq<Bomb>, i: Slot, n: nat, j: nat, b: Bomb)
    requires n <= |bs| && j < |bs|
    ensures Owned(bs[j := b], i, n) == Owned(bs, i, n) + if j < n then Mine(b, i) - Mine(bs[j], i) else 0
  {
    if n > 0 {
      OwnedUpdate(bs, i, n - 1, j, b);
    }
  }

  lemma {:induction false} OwnedSame(bs: seq<Bomb>, cs: seq<Bomb>, i: Slot, n: nat)
    requires n <= |bs| == |cs| && forall j :: 0 <= j < n ==> Mine(bs[j], i) == Mine(cs[j], i)
    ensures Owned(bs, i, n) == Owned(cs, i, n)
  {
    if n > 0 {
      OwnedSame(bs, cs, i, n - 1);
    }
  }

  lemma {:induction false} OwnedSome(bs: seq<Bomb>, i: Slot, n: nat, j: nat)
    requires j < n <= |bs| && Mine(bs[j], i) == 1
    ensures Owned(bs, i, n) >= 1
  {
    if j < n - 1 {
      OwnedSome(bs, i, n - 1, j);
    }
  }

  lemma {:induction false} OwnedNone(bs: seq<Bomb>, i: Slot, n: nat)
    requires n <= |bs| && forall j :: 0 <= j < n ==> bs[j].state == Free
    ensures Owned(bs, i, n) == 0
  {
    if n > 0 {
      OwnedNone(bs, i, n - 1);
    }
  }

  // -------------------------------------------------------------- invariant

  /** The counter of slot i is right and within its cap. */
  predicate CountOk(p: Player, i: Slot, bs: seq<Bomb>) {
    p.live == Owned(bs, i, |bs|) && p.live <= MAX_LIVE
  }

  /** The hand of slot i and its HELD bombs match one to one; no hand outlives a hit. */
  predicate HandOk(p: Player, i: Slot, bs: seq<Bomb>) {
    && p.held <= |bs|
    && (p.held > 0 ==> bs[p.held - 1].state == Held && bs[p.held - 1].owner == i)
    && (forall j :: 0 <= j < |bs| && bs[j].state == Held && bs[j].owner == i ==> p.held == j + 1)
    && (p.state == Dead || p.state == Tumble ==> p.held == 0)
  }

  predicate SlotOk(p: Player, i: Slot, bs: seq<Bomb>) {
    CountOk(p, i, bs) && HandOk(p, i, bs)
  }

  predicate OwnOk(ps: Quad<Player>, bs: seq<Bomb>) {
    |bs| == MAX_BOMBS && forall i: Slot :: SlotOk(ps.At(i), i, bs)
  }

  /** A hand in play is kept closed by the bomb button. */
  predicate Gripped(p: Player) {
    p.held != 0 ==> BombBit(p.lastInput)
  }

  predicate AllGripped(ps: Quad<Player>) {
    forall i: Slot :: Gripped(ps.At(i))
  }

  predicate AllFree(bs: seq<Bomb>) {
    forall j :: 0 <= j < |bs| ==> bs[j].state == Free
  }

  predicate NoBlasts(ls: seq<Blast>) {
    forall j :: 0 <= j < |ls| ==> ls[j].ttl == 0
  }

  predicate OwnInv(s: State) {
    && Sized(s.world) && OwnOk(s.world.players, s.world.bombs)
    && (InPlay(s.phase) ==> AllGripped(s.world.players))
    && (s.phase == Countdown ==> AllFree(s.world.bombs) && NoBlasts(s.world.blasts))
  }

  // ----------------------------------------------------- changes of one slot

  /** Only free bombs and bombs of slot i change, and those end up slot i's. */
  predicate ChangesOnly(bs: seq<Bomb>, cs: seq<Bomb>, i: Slot) {
    |cs| == |bs| && forall j :: 0 <= j < |bs| ==>
      cs[j] == bs[j] || ((bs[j].state == Free || bs[j].owner == i) && cs[j].owner == i && cs[j].state != Free)
  }

  lemma OthersUnmoved(bs: seq<Bomb>, cs: seq<Bomb>, i: Slot, k: Slot, q: Player)
    requires ChangesOnly(bs, cs, i) && k != i && SlotOk(q, k, bs)
    ensures SlotOk(q, k, cs)
  {
    OwnedSame(bs, cs, k, |bs|);
  }

  lemma ChangesTrans(bs: seq<Bomb>, cs: seq<Bomb>, ds: seq<Bomb>, i: Slot)
    requires ChangesOnly(bs, cs, i) && ChangesOnly(cs, ds, i)
    ensures ChangesOnly(bs, ds, i)
  {
  }

  /** A free bomb becomes one of slot i's, not in the hand. */
  lemma TakeFree(p: Player, q: Player, i: Slot, bs: seq<Bomb>, j: nat, b: Bomb)
    requires SlotOk(p, i, bs) && j < |bs| && bs[j].state == Free && p.live < MAX_LIVE
    requires b.owner == i && b.state != Free && b.state != Held
    requires q.held == p.held && q.live == p.live + 1 && (q.state == Dead || q.state == Tumble ==> q.held == 0)
    ensures SlotOk(q, i, bs[j := b]) && ChangesOnly(bs, bs[j := b], i)
  {
    OwnedUpdate(bs, i, |bs|, j, b);
  }

  /** A free bomb comes into an empty hand. */
  lemma Grab(p: Player, q: Player, i: Slot, bs: seq<Bomb>, j: nat, b: Bomb)
    requires SlotOk(p, i, bs) && j < |bs| && bs[j].state == Free && p.live < MAX_LIVE && p.held == 0
    requires b.owner == i && b.state == Held
    requires q.held == j + 1 && q.live == p.live + 1 && q.state != Dead && q.state != Tumble
    ensures SlotOk(q, i, bs[j := b]) && ChangesOnly(bs, bs[j := b], i)
  {
    OwnedUpdate(bs, i, |bs|, j, b);
  }

  /** The held bomb leaves the hand. */
  lemma LetGo(p: Player, q: Player, i: Slot, bs: seq<Bomb>, b: Bomb)
    requires SlotOk(p, i, bs) && p.held > 0
    requires b.owner == i && b.state != Free && b.state != Held
    requires q.held == 0 && q.live == p.live
    ensures SlotOk(q, i, bs[p.held - 1 := b]) && ChangesOnly(bs, bs[p.held - 1 := b], i)
  {
    OwnedUpdate(bs, i, |bs|, p.held - 1, b);
  }

  lemma SameHand(p: Player, q: Player, i: Slot, bs: seq<Bomb>)
    requires SlotOk(p, i, bs) && q.held == p.held && q.live == p.live
    requires q.state == Dead || q.state == Tumble ==> q.held == 0
    ensures SlotOk(q, i, bs)
  {
  }

  // ---------------------------------------------------------- a player's turn

  lemma FreeCountUpdate(bs: seq<Bomb>, i: nat, j: nat, b: Bomb)
    requires j < |bs|
    ensures FreeCount(bs[j := b], i) ==
      FreeCount(bs, i) + if i <= j then (if b.state == Free then 1 else 0) - (if bs[j].state == Free then 1 else 0)
        else 0
    decreases |bs| - i
  {
    if i < |bs| {
      FreeCountUpdate(bs, i + 1, j, b);
    }
  }

  lemma {:induction false} SomeFree(bs: seq<Bomb>, i: nat)
    requires FreeCount(bs, i) > 0
    ensures FreeBombFrom(bs, i).Some?
    decreases |bs| - i
  {
    if i < |bs| && bs[i].state != Free {
      SomeFree(bs, i + 1);
    }
  }

  /** The spread lays every one of its extra bombs: there are always enough free
      slots, and the cap is never exceeded. */
  lemma {:induction false} FanOwn(p: Player, i: Slot, bs: seq<Bomb>, extras: nat, k: nat)
    requires SlotOk(p, i, bs) && 1 <= k <= extras + 1 && p.held == 0
    requires extras + 1 - k <= FreeCount(bs, 0) && p.live + (extras + 1 - k) <= MAX_LIVE
    ensures var (q, cs) := FanFrom(p, i, bs, extras, k);
      && q == p.(live := p.live + (extras + 1 - k)) && SlotOk(q, i, cs) && ChangesOnly(bs, cs, i)
    decreases extras + 1 - k
  {
    hide Thrown, FanDir, SlotOk, ChangesOnly, FreeCount;
    if k <= extras {
      SomeFree(bs, 0);
      var j := FreeBombFrom(bs, 0).value;
      var b := Thrown(p, NO_BOMB.(owner := i), FanDir(p, extras, k), SPREAD_SPEED, SPREAD_UP);
      assert b.owner == i && b.state == Airborne by {
        ThrownIs(p, NO_BOMB.(owner := i), FanDir(p, extras, k), SPREAD_SPEED, SPREAD_UP);
      }
      var q := p.(live := (p.live + 1) % 0x100);
      TakeFree(p, q, i, bs, j, b);
      FreeCountUpdate(bs, 0, j, b);
      FanOwn(q, i, bs[j := b], extras, k + 1);
      ChangesTrans(bs, bs[j := b], FanFrom(q, i, bs[j := b], extras, k + 1).1, i);
    } else {
      NoChange(bs, i);
    }
  }

  lemma NoChange(bs: seq<Bomb>, i: Slot)
    ensures ChangesOnly(bs, bs, i)
  {
  }

  lemma ThrownIs(p: Player, b: Bomb, dir: u16, fwd: int, up: int)
    ensures var d := Thrown(p, b, dir, fwd, up); d.owner == b.owner && d.state == Airborne
  {
    hide Sin, Cos, Mul;
  }

  lemma ExtrasFit(p: Player, bs: seq<Bomb>)
    requires p.live <= MAX_LIVE
    ensures var e := Extras(p, bs); 0 <= e <= 3 && e <= FreeCount(bs, 0) && p.live + e <= MAX_LIVE
  {
    hide FreeCount;
  }

  lemma ReleaseOwn(p: Player, i: Slot, bs: seq<Bomb>)
    requires SlotOk(p, i, bs) && p.held > 0
    ensures var (q, cs) := Release(p, i, bs);
      && SlotOk(q, i, cs) && |cs| == |bs| && ChangesOnly(bs, cs, i) && q.state == p.state && q.held == 0
      && q.live == p.live + if p.timer < SPREAD_TICKS then 0 else Extras(p, bs)
  {
    hide Thrown, FanDir, FanFrom, Owned, FreeCount, Extras;
    var h := p.held - 1;
    if p.timer < SPREAD_TICKS {
      var b := Thrown(p, bs[h], p.yaw, THROW_SPEED, THROW_UP);
      ThrownIs(p, bs[h], p.yaw, THROW_SPEED, THROW_UP);
      LetGo(p, p.(held := 0, timer := 0), i, bs, b);
    } else {
      ExtrasFit(p, bs);
      var extras := Extras(p, bs);
      var b := Thrown(p, bs[h], FanDir(p, extras, 0), SPREAD_SPEED, SPREAD_UP);
      ThrownIs(p, bs[h], FanDir(p, extras, 0), SPREAD_SPEED, SPREAD_UP);
      FreeCountUpdate(bs, 0, h, b);
      LetGo(p, p.(held := 0), i, bs, b);
      FanHeld(p, p.(held := 0), i, bs[h := b], extras, 1);
      FanOwn(p.(held := 0), i, bs[h := b], extras, 1);
      ChangesTrans(bs, bs[h := b], FanFrom(p, i, bs[h := b], extras, 1).1, i);
      SameHand(FanFrom(p.(held := 0), i, bs[h := b], extras, 1).0, Release(p, i, bs).0, i, Release(p, i, bs).1);
    }
  }

  /** The spread does not look at the hand. */
  lemma {:induction false} FanHeld(p: Player, q: Player, i: Slot, bs: seq<Bomb>, extras: nat, k: nat)
    requires q == p.(held := q.held)
    ensures var a, b := FanFrom(p, i, bs, extras, k), FanFrom(q, i, bs, extras, k);
      a.1 == b.1 && a.0 == b.0.(held := p.held)
    decreases extras + 1 - k
  {
    hide FanAngle, Sin, Cos, Mul;
    if k <= extras && FreeBombFrom(bs, 0).Some? {
      var j := FreeBombFrom(bs, 0).value;
      var b := Thrown(p, NO_BOMB.(owner := i), FanDir(p, extras, k), SPREAD_SPEED, SPREAD_UP);
      assert b == Thrown(q, NO_BOMB.(owner := i), FanDir(q, extras, k), SPREAD_SPEED, SPREAD_UP);
      hide Thrown;
      FanHeld(p.(live := (p.live + 1) % 0x100), q.(live := (q.live + 1) % 0x100), i, bs[j := b], extras, k + 1);
    }
  }

  lemma HandsOwn(p: Player, i: Slot, bs: seq<Bomb>, in': u16, c: Ctx)
    requires SlotOk(p, i, bs) && |bs| == MAX_BOMBS && p.state != Dead && (c.play ==> Gripped(p))
    ensures var (q, cs) := Hands(p, i, bs, in', c);
      && SlotOk(q, i, cs) && |cs| == |bs| && ChangesOnly(bs, cs, i) && q.state == p.state && q.lastInput == p.lastInput
      && (c.play && q.held != 0 ==> BombBit(in'))
  {
    NoChange(bs, i);
    hide Release, Owned, ChangesOnly, BombBit;
    var now, was := BombBit(in'), BombBit(p.lastInput);
    if !c.play || p.state == Tumble {
    } else if now && !was && p.held == 0 && p.live < MAX_LIVE {
      match FreeBombFrom(bs, 0) {
        case None =>
        case Some(j) =>
          Grab(p, p.(held := j + 1, live := p.live + 1, timer := 0), i, bs, j, NO_BOMB.(owner := i, state := Held));
      }
    } else if now && p.held != 0 {
      SameHand(p, p.(timer := Min(p.timer + 1, 0xFFFF)), i, bs);
    } else if !now && was && p.held != 0 {
      ReleaseOwn(p, i, bs);
      ReleaseInput(p, i, bs);
    }
  }

  lemma ReleaseInput(p: Player, i: Slot, bs: seq<Bomb>)
    requires 1 <= p.held <= |bs| && SlotOk(p, i, bs)
    ensures Release(p, i, bs).0.lastInput == p.lastInput
  {
    hide Thrown, FanDir, FanFrom, Owned, FreeCount, Extras;
    if p.timer >= SPREAD_TICKS {
      var extras := Extras(p, bs);
      ExtrasFit(p, bs);
      var b := Thrown(p, bs[p.held - 1], FanDir(p, extras, 0), SPREAD_SPEED, SPREAD_UP);
      FanInput(p, i, bs[p.held - 1 := b], extras, 1);
    }
  }

  lemma {:induction false} FanInput(p: Player, i: Slot, bs: seq<Bomb>, extras: nat, k: nat)
    ensures var q := FanFrom(p, i, bs, extras, k).0; q == p.(live := q.live)
    decreases extras + 1 - k
  {
    hide Thrown, FanDir;
    if k <= extras && FreeBombFrom(bs, 0).Some? {
      var j := FreeBombFrom(bs, 0).value;
      var b := Thrown(p, NO_BOMB.(owner := i), FanDir(p, extras, k), SPREAD_SPEED, SPREAD_UP);
      FanInput(p.(live := (p.live + 1) % 0x100), i, bs[j := b], extras, k + 1);
    }
  }

  lemma LayOwn(p: Player, i: Slot, bs: seq<Bomb>, in': u16, c: Ctx)
    requires SlotOk(p, i, bs) && |bs| == MAX_BOMBS && p.state != Dead
    ensures var (q, cs) := Lay(p, i, bs, in', c);
      && SlotOk(q, i, cs) && ChangesOnly(bs, cs, i) && q == p.(live := q.live)
  {
    NoChange(bs, i);
    hide Owned, ChangesOnly, InWalls, Sin, Cos, Mul, Lays;
    if Lays(p, in', c) && FreeBombFrom(bs, 0).Some? {
      LaysRoom(p, in', c);
      var j := FreeBombFrom(bs, 0).value;
      TakeFree(p, p.(live := p.live + 1), i, bs, j, Laid(p, i, c));
    }
  }

  lemma LaysRoom(p: Player, in': u16, c: Ctx)
    requires Lays(p, in', c)
    ensures p.live < MAX_LIVE && p.held == 0 && p.state != Tumble && c.play
  {
  }

  lemma SteerControl(p: Player, in': u16, c: Ctx)
    ensures var q := Leap(Steer(p, in', c), in', c);
      && q.held == p.held && q.live == p.live && q.lastInput == p.lastInput && q.timer == p.timer && q.hp == p.hp
      && q.stocks == p.stocks && (q.state == p.state || (q.state == Jump && p.state != Tumble))
  {
    hide Steering, Heading, Approach, Tilt, Sin, Cos, Mul;
  }

  lemma BodyControl(p: Player, c: Ctx)
    ensures var q := Upkeep(Fly(p, c));
      && q.held == p.held && q.live == p.live && q.hp == p.hp && q.stocks == p.stocks
      && (q.state == Tumble ==> p.state == Tumble) && (q.state == Dead <==> p.state == Dead)
  {
    hide Collide, Skid, Len2;
  }

  /** A player's whole turn keeps its slot in order and leaves the others' alone. */
  lemma TurnOwn(p: Player, i: Slot, bs: seq<Bomb>, in': u16, c: Ctx)
    requires SlotOk(p, i, bs) && |bs| == MAX_BOMBS && (c.play ==> Gripped(p))
    ensures var (q, cs) := PlayerTick(p, i, bs, in', c);
      SlotOk(q, i, cs) && ChangesOnly(bs, cs, i) && (c.play ==> Gripped(q))
  {
    hide Owned, ChangesOnly, Steer, Leap, Hands, Lay, Fly, Upkeep, BombBit;
    if p.state == Dead {
      NoChange(bs, i);
    } else {
      var r1 := Leap(Steer(p, in', c), in', c);
      SteerControl(p, in', c);
      SameHand(p, r1, i, bs);
      hide SlotOk;
      HandsOwn(r1, i, bs, in', c);
      var (r2, bs2) := Hands(r1, i, bs, in', c);
      LayOwn(r2, i, bs2, in', c);
      var (r3, bs3) := Lay(r2, i, bs2, in', c);
      ChangesTrans(bs, bs2, bs3, i);
      BodyControl(r3, c);
      BodyHand(r3, Upkeep(Fly(r3, c)).(lastInput := in'), i, bs3);
    }
  }

  lemma BodyHand(p: Player, q: Player, i: Slot, bs: seq<Bomb>)
    requires SlotOk(p, i, bs) && q.held == p.held && q.live == p.live
    requires (q.state == Tumble ==> p.state == Tumble) && (q.state == Dead <==> p.state == Dead)
    ensures SlotOk(q, i, bs)
  {
  }

  lemma {:induction false} PlayersOwn(ps: Quad<Player>, bs: seq<Bomb>, inputs: Quad<u16>, i: nat, c: Ctx)
    requires OwnOk(ps, bs) && (c.play ==> AllGripped(ps)) && (forall j: Slot :: ps.At(j).held <= |bs|)
    ensures var (qs, cs) := PlayersFrom(ps, bs, inputs, i, c); OwnOk(qs, cs) && (c.play ==> AllGripped(qs))
    decreases 4 - i
  {
    hide PlayerTick, SlotOk, Gripped, Quad.At;
    if i < 4 {
      TickLength(ps.At(i), i, bs, inputs.At(i), c);
      TurnOwn(ps.At(i), i, bs, inputs.At(i), c);
      var (p, cs) := PlayerTick(ps.At(i), i, bs, inputs.At(i), c);
      var qs := ps.With(i, p);
      forall k: Slot ensures SlotOk(qs.At(k), k, cs) {
        if k != i {
          OthersUnmoved(bs, cs, i, k, ps.At(k));
        }
      }
      HeldInside(qs, cs);
      PlayersOwn(qs, cs, inputs, i + 1, c);
    }
  }

  lemma HeldInside(ps: Quad<Player>, bs: seq<Bomb>)
    requires OwnOk(ps, bs)
    ensures |bs| == MAX_BOMBS && forall j: Slot :: ps.At(j).held <= |bs|
  {
  }

  // ------------------------------------------------------------ bomb stages

  /** The bombs keep owner, liveness and being held. */
  predicate SameTitles(bs: seq<Bomb>, cs: seq<Bomb>) {
    |cs| == |bs| && forall j :: 0 <= j < |bs| ==>
      cs[j].owner == bs[j].owner && (cs[j].state == Free <==> bs[j].state == Free)
        && (cs[j].state == Held <==> bs[j].state == Held)
  }

  /** A player keeps what ownership looks at. */
  predicate SameControl(p: Player, q: Player) {
    q.held == p.held && q.live == p.live && q.state == p.state && q.lastInput == p.lastInput
  }

  lemma TitlesSlot(p: Player, q: Player, i: Slot, bs: seq<Bomb>, cs: seq<Bomb>)
    requires SlotOk(p, i, bs) && SameTitles(bs, cs) && SameControl(p, q)
    ensures SlotOk(q, i, cs)
  {
    OwnedSame(bs, cs, i, |bs|);
  }

  lemma TitlesOwn(ps: Quad<Player>, qs: Quad<Player>, bs: seq<Bomb>, cs: seq<Bomb>)
    requires OwnOk(ps, bs) && SameTitles(bs, cs) && forall i: Slot :: SameControl(ps.At(i), qs.At(i))
    ensures OwnOk(qs, cs) && (AllGripped(ps) ==> AllGripped(qs))
  {
    hide SlotOk, Quad.At, BombBit;
    forall i: Slot ensures SlotOk(qs.At(i), i, cs) {
      TitlesSlot(ps.At(i), qs.At(i), i, bs, cs);
    }
  }

  lemma ShiftedControl(ps: Quad<Player>, qs: Quad<Player>)
    requires AllShifted(ps, qs)
    ensures forall i: Slot :: SameControl(ps.At(i), qs.At(i))
  {
    hide Quad.At;
  }

  lemma SameTitlesRefl(bs: seq<Bomb>)
    ensures SameTitles(bs, bs)
  {
  }

  lemma StepTitle(b: Bomb, d: Bomb)
    requires BombStep(b, d)
    ensures d.owner == b.owner && (d.state == Free <==> b.state == Free) && (d.state == Held <==> b.state == Held)
  {
  }

  lemma BombsOwn(w: World, c: Ctx)
    requires OwnOk(w.players, w.bombs)
    ensures var v := BombsFrom(w, 0, c); OwnOk(v.players, v.bombs) && (AllGripped(w.players) ==> AllGripped(v.players))
  {
    hide OwnOk, BombStep, AllShifted, AllGripped, BombsFrom;
    BombsFrame(w, 0, c);
    var v := BombsFrom(w, 0, c);
    ShiftedControl(w.players, v.players);
    forall j | 0 <= j < |w.bombs|
      ensures v.bombs[j].owner == w.bombs[j].owner && (v.bombs[j].state == Free <==> w.bombs[j].state == Free)
              && (v.bombs[j].state == Held <==> w.bombs[j].state == Held)
    {
      StepTitle(w.bombs[j], v.bombs[j]);
    }
    TitlesOwn(w.players, v.players, w.bombs, v.bombs);
  }

  /** Whoever owns a bomb that goes off has it on the counter: detonate's guard
      against an empty counter never holds back. */
  lemma CountedWhenDetonated(w: World, i: nat)
    requires OwnOk(w.players, w.bombs) && i < |w.bombs| && w.bombs[i].state != Free
    ensures w.players.At(w.bombs[i].owner).live > 0
  {
    hide Quad.At;
    var o := w.bombs[i].owner;
    assert SlotOk(w.players.At(o), o, w.bombs);
    OwnedSome(w.bombs, o, |w.bombs|, i);
  }

  lemma DetonateSlot(p: Player, q: Player, k: Slot, bs: seq<Bomb>, i: nat)
    requires SlotOk(p, k, bs) && i < |bs| && bs[i].state == Exploding
    requires SameControl(p.(live := q.live), q) && q.live == p.live - (if bs[i].owner == k then 1 else 0)
    ensures SlotOk(q, k, bs[i := bs[i].(state := Free)])
  {
    OwnedUpdate(bs, k, |bs|, i, bs[i].(state := Free));
  }

  lemma DetonateOwn(w: World, i: nat)
    requires OwnOk(w.players, w.bombs) && i < |w.bombs| && w.bombs[i].state == Exploding
    ensures var v := Detonate(w, i); OwnOk(v.players, v.bombs) && (AllGripped(w.players) ==> AllGripped(v.players))
  {
    CountedWhenDetonated(w, i);
    hide SlotOk, Quad.At, BombBit, FreeBlastFrom;
    var v := Detonate(w, i);
    forall k: Slot ensures SlotOk(v.players.At(k), k, v.bombs) {
      DetonateSlot(w.players.At(k), v.players.At(k), k, w.bombs, i);
    }
  }

  lemma {:induction false} DetonateAllOwn(w: World, i: nat)
    requires OwnOk(w.players, w.bombs)
    ensures var v := DetonateFrom(w, i); OwnOk(v.players, v.bombs) && (AllGripped(w.players) ==> AllGripped(v.players))
    decreases |w.bombs| - i
  {
    hide OwnOk, Detonate, AllGripped, KeepsHands;
    if i < |w.bombs| {
      if w.bombs[i].state == Exploding {
        DetonateOwn(w, i);
        DetonateAllOwn(Detonate(w, i), i + 1);
      } else {
        DetonateAllOwn(w, i + 1);
      }
    }
  }

  // ---------------------------------------------------------------- blasts

  lemma ChainTitles(bs: seq<Bomb>, center: Vec, radius: int)
    ensures SameTitles(bs, ChainFrom(bs, center, radius, 0))
  {
    hide ChainFrom, Len3;
  }

  lemma StruckIs(p: Player, center: Vec)
    ensures var q := Struck(p, center);
      q.held == 0 && q.live == p.live && q.lastInput == p.lastInput && (q.state == Dead || q.state == Tumble)
  {
    hide Len2, Div, Mul;
  }

  lemma DropSlot(p: Player, q: Player, i: Slot, bs: seq<Bomb>, d: Bomb)
    requires SlotOk(p, i, bs) && p.held > 0 && q.held == 0 && q.live == p.live
    requires d.owner == bs[p.held - 1].owner && d.state == Settled
    ensures SlotOk(q, i, bs[p.held - 1 := d]) && ChangesOnly(bs, bs[p.held - 1 := d], i)
  {
    LetGo(p, q, i, bs, d);
  }

  lemma DamageOwn(w: World, center: Vec, radius: int, i: Slot)
    requires OwnOk(w.players, w.bombs) && w.players.At(i).held <= |w.bombs|
    ensures var v := Damage(w, center, radius, i);
      OwnOk(v.players, v.bombs) && (AllGripped(w.players) ==> AllGripped(v.players))
  {
    hide SlotOk, Quad.At, BombBit, Exposed, InReach, Struck, ChangesOnly;
    var p := w.players.At(i);
    if Exposed(p) && InReach(p, center, radius) {
      var v := Damage(w, center, radius, i);
      StruckIs(p, center);
      assert SlotOk(p, i, w.bombs);
      if p.held == 0 {
        NoChange(w.bombs, i);
        SameHand(p, v.players.At(i), i, w.bombs);
      } else {
        DropSlot(p, v.players.At(i), i, w.bombs, Dropped(w.bombs[p.held - 1], p, i));
      }
      forall k: Slot ensures SlotOk(v.players.At(k), k, v.bombs) {
        if k != i {
          OthersUnmoved(w.bombs, v.bombs, i, k, w.players.At(k));
        }
      }
    }
  }

  lemma {:induction false} DamageAllOwn(w: World, center: Vec, radius: int, n: u8, i: nat)
    requires OwnOk(w.players, w.bombs) && HandsOk(w)
    ensures var v := DamageFrom(w, center, radius, n, i);
      OwnOk(v.players, v.bombs) && (AllGripped(w.players) ==> AllGripped(v.players))
    decreases 4 - i
  {
    hide OwnOk, Damage, AllGripped, HandsOk;
    if i < 4 && i < n {
      HandOf(w, i);
      DamageOwn(w, center, radius, i);
      var v := Damage(w, center, radius, i);
      OwnHands(v);
      DamageAllOwn(v, center, radius, n, i + 1);
    }
  }

  lemma HandOf(w: World, i: Slot)
    requires HandsOk(w)
    ensures w.players.At(i).held <= |w.bombs|
  {
  }

  lemma OwnHands(w: World)
    requires OwnOk(w.players, w.bombs)
    ensures HandsOk(w)
  {
  }

  lemma BlastOwn(w: World, j: nat, c: Ctx)
    requires OwnOk(w.players, w.bombs) && HandsOk(w) && j < |w.blasts|
    ensures var v := BlastTick(w, j, c); OwnOk(v.players, v.bombs) && (AllGripped(w.players) ==> AllGripped(v.players))
  {
    hide OwnOk, DamageFrom, AllGripped, HandsOk, ChainFrom, Radius, SameTitles, SameControl;
    var l := w.blasts[j];
    if l.ttl != 0 {
      var g := Grown(l);
      ChainTitles(w.bombs, g.center, Radius(g));
      ControlRefl(w.players);
      TitlesOwn(w.players, w.players, w.bombs, ChainFrom(w.bombs, g.center, Radius(g), 0));
      var m := w.(blasts := w.blasts[j := g], bombs := ChainFrom(w.bombs, g.center, Radius(g), 0));
      OwnHands(m);
      DamageAllOwn(m, g.center, Radius(g), c.n, 0);
    }
  }

  lemma ControlRefl(ps: Quad<Player>)
    ensures forall i: Slot :: SameControl(ps.At(i), ps.At(i))
  {
  }

  lemma {:induction false} BlastsOwn(w: World, j: nat, c: Ctx)
    requires OwnOk(w.players, w.bombs) && HandsOk(w)
    ensures var v := BlastsFrom(w, j, c); OwnOk(v.players, v.bombs) && (AllGripped(w.players) ==> AllGripped(v.players))
    decreases |w.blasts| - j
  {
    hide OwnOk, BlastTick, AllGripped, HandsOk;
    if j < |w.blasts| {
      BlastOwn(w, j, c);
      BlastsOwn(BlastTick(w, j, c), j + 1, c);
    }
  }

  // ------------------------------------------------------------------ a tick

  lemma WorldOwn(w: World, inputs: Quad<u16>, c: Ctx)
    requires Sized(w) && HandsOk(w) && OwnOk(w.players, w.bombs) && (c.play ==> AllGripped(w.players))
    ensures var v := WorldStep(w, inputs, c); OwnOk(v.players, v.bombs) && (c.play ==> AllGripped(v.players))
  {
    hide OwnOk, AllGripped, PlayersFrom, PushFrom, BombsFrom, DetonateFrom, BlastsFrom, SameControl, AllShifted,
      KeepsHands;
    PlayersOwn(w.players, w.bombs, inputs, 0, c);
    var (ps, bs) := PlayersFrom(w.players, w.bombs, inputs, 0, c);
    PushShifts(ps, 0, 1);
    ShiftedControl(ps, PushFrom(ps, 0, 1));
    SameTitlesRefl(bs);
    TitlesOwn(ps, PushFrom(ps, 0, 1), bs, bs);
    var m := World(PushFrom(ps, 0, 1), bs, w.blasts);
    BombsOwn(m, c);
    var n := BombsFrom(m, 0, c);
    DetonateAllOwn(n, 0);
    var o := DetonateFrom(n, 0);
    OwnHands(o);
    BlastsOwn(o, 0, c);
  }

  lemma ResetOwn(ps: Quad<Player>, arena: ArenaId, n: u8)
    ensures var w := ResetWorld(ps, arena, n);
      Sized(w) && OwnOk(w.players, w.bombs) && AllFree(w.bombs) && NoBlasts(w.blasts)
  {
    hide Atan2;
    var w := ResetWorld(ps, arena, n);
    forall i: Slot ensures SlotOk(w.players.At(i), i, w.bombs) {
      OwnedNone(w.bombs, i, |w.bombs|);
    }
  }

  /** With every bomb free nobody holds one. */
  lemma FreeHands(ps: Quad<Player>, bs: seq<Bomb>)
    requires OwnOk(ps, bs) && AllFree(bs)
    ensures forall i: Slot :: ps.At(i).held == 0 && ps.At(i).live == 0
  {
    hide Quad.At;
    forall i: Slot ensures ps.At(i).held == 0 && ps.At(i).live == 0 {
      assert SlotOk(ps.At(i), i, bs);
      OwnedNone(bs, i, |bs|);
    }
  }

  lemma PhaseOwn(s: State)
    requires OwnInv(s)
    ensures OwnInv(PhaseStep(s))
  {
    hide OwnOk, ResetWorld, AllFree, NoBlasts, BombBit, Quad.At;
    if s.phase == Countdown {
      FreeHands(s.world.players, s.world.bombs);
    }
    ResetOwn(s.world.players, s.arena, s.numPlayers);
  }

  /** Outside play and with nothing on the field, a turn leaves the bombs alone. */
  lemma TurnIdle(p: Player, i: Slot, bs: seq<Bomb>, in': u16, c: Ctx)
    requires p.held <= |bs| <= 0xFF && !c.play
    ensures PlayerTick(p, i, bs, in', c).1 == bs
  {
    hide Steer, Leap, Fly, Upkeep, Wait, Release;
    TickLength(p, i, bs, in', c);
  }

  lemma {:induction false} PlayersIdle(ps: Quad<Player>, bs: seq<Bomb>, inputs: Quad<u16>, i: nat, c: Ctx)
    requires |bs| <= 0xFF && (forall j: Slot :: ps.At(j).held <= |bs|) && !c.play
    ensures PlayersFrom(ps, bs, inputs, i, c).1 == bs
    decreases 4 - i
  {
    hide PlayerTick, Quad.At;
    if i < 4 {
      TickLength(ps.At(i), i, bs, inputs.At(i), c);
      TurnIdle(ps.At(i), i, bs, inputs.At(i), c);
      PlayersIdle(ps.With(i, PlayerTick(ps.At(i), i, bs, inputs.At(i), c).0), bs, inputs, i + 1, c);
    }
  }

  lemma {:induction false} DetonateNone(w: World, i: nat)
    requires AllFree(w.bombs)
    ensures DetonateFrom(w, i) == w
    decreases |w.bombs| - i
  {
    hide KeepsHands;
    if i < |w.bombs| {
      DetonateNone(w, i + 1);
    }
  }

  lemma {:induction false} BlastsNone(w: World, j: nat, c: Ctx)
    requires HandsOk(w) && NoBlasts(w.blasts)
    ensures BlastsFrom(w, j, c) == w
    decreases |w.blasts| - j
  {
    hide HandsOk;
    if j < |w.blasts| {
      BlastsNone(w, j + 1, c);
    }
  }

  lemma {:induction false} BombsNone(w: World, i: nat, c: Ctx)
    requires AllFree(w.bombs)
    ensures BombsFrom(w, i, c) == w
    decreases |w.bombs| - i
  {
    hide KeepsHands;
    if i < |w.bombs| {
      BombsNone(w, i + 1, c);
    }
  }

  /** An empty field outside play stays empty, and only the turns and pushouts happen. */
  lemma CalmStep(w: World, inputs: Quad<u16>, c: Ctx)
    requires Sized(w) && HandsOk(w) && AllFree(w.bombs) && NoBlasts(w.blasts) && !c.play
    ensures var v := WorldStep(w, inputs, c);
      && AllFree(v.bombs) && NoBlasts(v.blasts)
      && v.players == PushFrom(PlayersFrom(w.players, w.bombs, inputs, 0, c).0, 0, 1)
  {
    hide AllFree, NoBlasts, PlayersFrom, PushFrom, BombsFrom, DetonateFrom, BlastsFrom;
    PlayersIdle(w.players, w.bombs, inputs, 0, c);
    var (ps, bs) := PlayersFrom(w.players, w.bombs, inputs, 0, c);
    var m := World(PushFrom(ps, 0, 1), bs, w.blasts);
    BombsNone(m, 0, c);
    DetonateNone(m, 0);
    BlastsNone(m, 0, c);
  }

  lemma JudgeOwn(s: State)
    requires OwnInv(s)
    ensures OwnInv(Judge(s))
  {
    hide OwnOk, AllFree, NoBlasts, AliveFrom, LastAlive, AllGripped;
    if InPlay(s.phase) && AliveFrom(s.world.players, s.numPlayers, 0) <= 1 {
      match LastAlive(s.world.players, s.numPlayers, 0) {
        case None =>
        case Some(k) =>
          AwardOwn(s.world.players, s.world.bombs, k);
      }
    }
  }

  lemma AwardOwn(ps: Quad<Player>, bs: seq<Bomb>, k: Slot)
    requires OwnOk(ps, bs)
    ensures OwnOk(ps.With(k, ps.At(k).(stocks := (ps.At(k).stocks + 1) % 0x100)), bs)
  {
    hide SlotOk, Quad.At;
    SameHand(ps.At(k), ps.At(k).(stocks := (ps.At(k).stocks + 1) % 0x100), k, bs) by {
      assert SlotOk(ps.At(k), k, bs);
      SlotHand(ps.At(k), k, bs);
    }
  }

  lemma SlotHand(p: Player, k: Slot, bs: seq<Bomb>)
    requires SlotOk(p, k, bs)
    ensures p.state == Dead || p.state == Tumble ==> p.held == 0
  {
  }

  lemma OwnState(s: State)
    requires OwnInv(s)
    ensures StateOk(s)
  {
    OwnHands(s.world);
  }

  /** Every tick keeps ownership, for every input. */
  lemma TickOwn(s: State, inputs: Quad<u16>)
    requires OwnInv(s)
    ensures StateOk(s) && OwnInv(Tick(s, inputs))
  {
    hide OwnOk, AllFree, NoBlasts, AllGripped, WorldStep, PhaseStep, Judge, HandsOk;
    OwnState(s);
    PhaseOwn(s);
    var s1 := PhaseStep(s);
    OwnState(s1);
    WorldOwn(s1.world, inputs, CtxOf(s1));
    if s1.phase == Countdown {
      CalmStep(s1.world, inputs, CtxOf(s1));
    }
    JudgeOwn(s1.(world := WorldStep(s1.world, inputs, CtxOf(s1))));
  }

  lemma InitOwn(arena: ArenaId, n: u8, seed: bv32)
    ensures OwnInv(Init(arena, n, seed))
  {
    ResetOwn(Same(NO_PLAYER), arena, n);
  }
}
