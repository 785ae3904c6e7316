// The offline replay: re-simulating a recorded history, naming the first tick at
// which the live session's own hashes disagree with it, and why that is exact.

module ReplayBundle {
  import opened Basics
  import opened ArenaTypes
  import opened ArenaSim
  import opened ArenaBytes
  import opened SyncSession
  import opened SyncDriver

  /** Entry t is the hash an honest run over the record has after t ticks. */
  predicate Replays(hashes: seq<u32>, s0: State, rec: seq<Inputs>, recCount: nat)
    requires StateOk(s0)
  {
    recCount <= |rec| && recCount < |hashes|
    && forall t :: 0 <= t <= recCount ==> hashes[t] == StateHash(After(s0, rec[..t]))
  }

  /** replay. */
  method Replay(rec: seq<Inputs>, recCount: nat, arena: ArenaId, n: u8, seed: bv32) returns (hashes: array<u32>)
    requires recCount <= |rec| && recCount <= MAX_TICKS
    ensures Replays(hashes[..], Init(arena, n, seed), rec, recCount)
  {
    hide Tick, Init, StateHash, HandsOk;
    hashes := new u32[recCount + 2](_ => 0);
    var s := Init(arena, n, seed);
    ghost var s0 := s;
    assert s0.tick == 0 by { InitTick(arena, n, seed); }
    hashes[0] := StateHash(s);
    assert rec[..0] == [];
    var t := 0;
    while t < recCount
      invariant 0 <= t <= recCount && StateOk(s) && s == After(s0, rec[..t]) && s.tick == t
      invariant forall u :: 0 <= u <= t ==> hashes[u] == StateHash(After(s0, rec[..u]))
    {
      assert rec[..t + 1] == rec[..t] + [rec[t]];
      AfterOneMore(s0, rec[..t], rec[t]);
      TickCounts(s, rec[t]);
      s := Tick(s, rec[t]);
      hashes[s.tick] := StateHash(s);
      t := t + 1;
    }
  }

  lemma InitTick(arena: ArenaId, n: u8, seed: bv32)
    ensures Init(arena, n, seed).tick == 0
  {
  }

  /** Ring entry i is inside the replay and disagrees with it. */
  predicate Diverges(ring: seq<TickHash>, hashes: seq<u32>, recCount: nat, i: nat) {
    i < |ring| && 0 < ring[i].tick <= recCount && recCount < |hashes| && ring[i].hash != hashes[ring[i].tick]
  }

  /** best is the least tick that disagrees, or 0 when none does. */
  predicate IsFirst(ring: seq<TickHash>, hashes: seq<u32>, recCount: nat, best: nat) {
    && (best == 0 ==> forall i :: 0 <= i < |ring| ==> !Diverges(ring, hashes, recCount, i))
    && (best != 0 ==>
          && (exists i :: 0 <= i < |ring| && Diverges(ring, hashes, recCount, i) && ring[i].tick == best)
          && forall i :: 0 <= i < |ring| && Diverges(ring, hashes, recCount, i) ==> best <= ring[i].tick)
  }

  /** first_divergence: a running minimum over the ring. */
  method FirstDivergence(ring: seq<TickHash>, hashes: array<u32>, recCount: nat)
    returns (best: nat, ringHash: u32, replayHash: u32)
    requires recCount < hashes.Length
    ensures IsFirst(ring, hashes[..], recCount, best)
    ensures best != 0 ==> best <= recCount && replayHash == hashes[best] && ringHash != replayHash
  {
    best, ringHash, replayHash := 0, 0, 0;
    var i := 0;
    while i < |ring|
      invariant 0 <= i <= |ring|
      invariant best == 0 ==> forall k :: 0 <= k < i ==> !Diverges(ring, hashes[..], recCount, k)
      invariant best != 0 ==> exists k :: 0 <= k < i && Diverges(ring, hashes[..], recCount, k) && ring[k].tick == best
      invariant best != 0 ==> forall k :: 0 <= k < i && Diverges(ring, hashes[..], recCount, k) ==> best <= ring[k].tick
      invariant best != 0 ==> best <= recCount && replayHash == hashes[best] && ringHash != replayHash
    {
      var t := ring[i].tick;
      if t != 0 && t <= recCount && ring[i].hash != hashes[t] {
        assert Diverges(ring, hashes[..], recCount, i);
        if best == 0 || t < best {
          best, ringHash, replayHash := t, ring[i].hash, hashes[t];
        }
      }
      i := i + 1;
    }
  }

  // ---------------------------------------------------------------- exactness

  /** At the front of the history, an entry disagrees with the replay exactly if the
      live session differed from an honest run after that tick: the hash never
      hides a flipped bit and never invents one. */
  lemma EntryVerdict(s0: State, d: Driver, hashes: seq<u32>, i: nat)
    requires DriverInv(s0, d) && Quiescent(d) && Replays(hashes, s0, d.session.rec, d.session.recCount)
    requires i < RING && 0 < d.session.ring[i].tick <= d.session.recCount
    ensures d.session.ring[i].tick < |d.bad|
    ensures Diverges(d.session.ring, hashes, d.session.recCount, i) <==> d.bad[d.session.ring[i].tick]
  {
    hide After, StateHash, HandsOk, FlipBit, SnapsOk;
    var t := d.session.ring[i].tick;
    assert EntryOk(s0, d, d.session.ring[i], i);
    RecPrefix(d, t);
    FlipChangesHash(Honest(s0, d.hist, t));
  }

  /** The verdict of the replay tool, for any number of corruptions and rollbacks:
      the least tick still in the ring at which the session was wrong, or none. */
  lemma ReplayVerdict(s0: State, d: Driver, hashes: seq<u32>, best: nat)
    requires DriverInv(s0, d) && Quiescent(d) && Replays(hashes, s0, d.session.rec, d.session.recCount)
    requires IsFirst(d.session.ring, hashes, d.session.recCount, best)
    ensures var s := d.session;
      && s.recCount < |d.bad|
      && (best == 0 <==> forall i :: 0 <= i < RING && 0 < s.ring[i].tick <= s.recCount ==> !d.bad[s.ring[i].tick])
      && (best != 0 ==>
            && best <= s.recCount && d.bad[best] && s.ring[best % RING].tick == best
            && forall i :: 0 <= i < RING && 0 < s.ring[i].tick < best ==> !d.bad[s.ring[i].tick])
  {
    var s := d.session;
    hide Replays, HandsOk, SnapsOk, Truth;
    forall i | 0 <= i < RING && 0 < s.ring[i].tick <= s.recCount
      ensures s.ring[i].tick < |d.bad| && (Diverges(s.ring, hashes, s.recCount, i) <==> d.bad[s.ring[i].tick])
      ensures s.ring[i].tick % RING == i
    {
      EntryVerdict(s0, d, hashes, i);
      assert EntryOk(s0, d, s.ring[i], i);
    }
    hide EntryOk, RingOk;
  }

  /** The history is honest up to tick t and wrong from t + 1 on. */
  predicate BadFrom(d: Driver, t: nat) {
    && |d.bad| == |d.hist| + 1 && t < |d.hist| && !d.session.pending && d.session.state.tick > t
    && forall u :: 0 <= u < |d.bad| ==> (d.bad[u] <==> u > t)
  }

  /** No later load goes back to tick t or before. */
  predicate StaysPast(ms: seq<Move>, t: nat) {
    forall k :: 0 <= k < |ms| ==> !ms[k].Corrupt? && (ms[k].Restore? ==> ms[k].tick > t)
  }

  lemma BadStep(s0: State, d: Driver, m: Move, t: nat)
    requires DriverInv(s0, d) && Enabled(d, m) && BadFrom(d, t) && !m.Corrupt? && (m.Restore? ==> m.tick > t)
    ensures BadFrom(Apply(d, m), t)
  {
    hide HandsOk, StateHash, RingOk, RecOk, Tick;
    match m {
      case Forward(q, rolling) =>
        hide Truth, SnapsOk;
        AdvanceState(d.session, q, rolling);
        TickCounts(d.session.state, Masked(q, d.session.n));
      case Restore(u) =>
        TruthTick(s0, d, u);
        hide Truth;
      case _ =>
    }
  }

  lemma {:induction false} BadRun(s0: State, d: Driver, ms: seq<Move>, t: nat)
    requires DriverInv(s0, d) && Runs(d, ms) && BadFrom(d, t) && StaysPast(ms, t)
    ensures BadFrom(Final(d, ms), t)
    decreases |ms|
  {
    hide DriverInv, Enabled, Apply, BadFrom;
    if ms != [] {
      assert !ms[0].Corrupt? && (ms[0].Restore? ==> ms[0].tick > t);
      BadStep(s0, d, ms[0], t);
      MoveKeeps(s0, d, ms[0]);
      BadRun(s0, Apply(d, ms[0]), ms[1..], t);
    }
  }

  /** Flipping the generator's bit during one fresh advance from tick t. */
  lemma FlipOnce(s0: State, d: Driver, q: Inputs)
    requires DriverInv(s0, d) && Clean(d) && Enabled(d, Corrupt) && Enabled(Apply(d, Corrupt), Forward(q, false))
    ensures BadFrom(Apply(Apply(d, Corrupt), Forward(q, false)), d.session.state.tick)
  {
    hide HandsOk, StateHash, RingOk, RecOk, SnapsOk, Tick, Truth;
    var c := Apply(d, Corrupt);
    AdvanceState(c.session, q, false);
    TickCounts(c.session.state, Masked(q, c.session.n));
  }

  lemma LocatesFront(s0: State, d: Driver, hashes: seq<u32>, best: nat, t: nat)
    requires DriverInv(s0, d) && Quiescent(d) && Replays(hashes, s0, d.session.rec, d.session.recCount)
    requires IsFirst(d.session.ring, hashes, d.session.recCount, best)
    requires BadFrom(d, t) && t < MAX_TICKS && d.session.ring[(t + 1) % RING].tick == t + 1
    ensures best == t + 1
  {
    hide Replays, IsFirst, HandsOk, SnapsOk, RingOk, Truth;
    ReplayVerdict(s0, d, hashes, best);
    assert t + 1 <= d.session.recCount;
    var i := (t + 1) % RING;
    assert d.bad[d.session.ring[i].tick];
  }

  /** Exact localisation: if one fresh advance t -> t + 1 of an otherwise honest run
      has its generator bit flipped, and no later load restores a tick up to t, then
      the replay names t + 1 as long as the ring still holds that tick. */
  lemma ExactLocalisation(arena: ArenaId, n: u8, seed: bv32, before: seq<Move>, q: Inputs, after: seq<Move>,
                          hashes: seq<u32>, best: nat)
    requires Runs(Begin(arena, n, seed), before) && NeverCorrupts(before)
    requires var d0 := Final(Begin(arena, n, seed), before);
      && Enabled(d0, Corrupt) && Enabled(Apply(d0, Corrupt), Forward(q, false))
      && var t := d0.session.state.tick;
         var d1 := Apply(Apply(d0, Corrupt), Forward(q, false));
         && Runs(d1, after) && StaysPast(after, t) && t < MAX_TICKS
         && var d := Final(d1, after);
            && Quiescent(d) && |d.session.ring| == RING && d.session.ring[(t + 1) % RING].tick == t + 1
            && Replays(hashes, Init(arena, n, seed), d.session.rec, d.session.recCount)
            && IsFirst(d.session.ring, hashes, d.session.recCount, best)
    ensures best == Final(Begin(arena, n, seed), before).session.state.tick + 1
  {
    hide DriverInv, Enabled, Apply, BadFrom, Clean, Init, Begin, Replays, IsFirst, Runs, Final, StaysPast, Quiescent,
      HandsOk;
    var s0, b := Init(arena, n, seed), Begin(arena, n, seed);
    BeginInv(arena, n, seed);
    BeginClean(arena, n, seed);
    RunKeeps(s0, b, before);
    CleanRun(b, before);
    var d0 := Final(b, before);
    FlipOnce(s0, d0, q);
    MoveKeeps(s0, d0, Corrupt);
    MoveKeeps(s0, Apply(d0, Corrupt), Forward(q, false));
    var d1 := Apply(Apply(d0, Corrupt), Forward(q, false));
    var t := d0.session.state.tick;
    RunKeeps(s0, d1, after);
    BadRun(s0, d1, after, t);
    LocatesFront(s0, Final(d1, after), hashes, best, t);
  }

  /** The other half: once a load goes back to tick t or before and the session
      advances from there, the corruption is gone from the history. */
  lemma RollbackHeals(s0: State, d: Driver, t: nat, u: nat, q: Inputs, rolling: bool)
    requires DriverInv(s0, d) && BadFrom(d, t) && u <= t && Enabled(d, Restore(u))
    requires Enabled(Apply(d, Restore(u)), Forward(q, rolling))
    ensures Clean(Apply(Apply(d, Restore(u)), Forward(q, rolling)))
  {
    hide HandsOk, StateHash, RingOk, RecOk, Tick;
    TruthTick(s0, d, u);
    hide Truth, SnapsOk;
    var r := Apply(d, Restore(u));
    AdvanceState(r.session, q, rolling);
    AdvancePending(r.session, q, rolling);
  }

  lemma AdvancePending(s: Session, q: Inputs, rolling: bool)
    requires Shape(s) && !s.pending
    ensures !AdvanceStep(s, q, rolling).pending
  {
    hide Tick, HandsOk, StateHash;
  }

  /** An honest session at rest is CONSISTENT. */
  lemma HonestIsConsistent(s0: State, d: Driver, hashes: seq<u32>, best: nat)
    requires DriverInv(s0, d) && Quiescent(d) && Clean(d) && Replays(hashes, s0, d.session.rec, d.session.recCount)
    requires IsFirst(d.session.ring, hashes, d.session.recCount, best)
    ensures best == 0
  {
    hide Replays, IsFirst, DriverInv;
    ReplayVerdict(s0, d, hashes, best);
  }

  // ------------------------------------------------------------------ culprit

  datatype Verdict = CulpritA | CulpritB | Both | Neither

  /** main's decision over two bundles. */
  function Culprit(ta: nat, tb: nat): Verdict {
    if ta != 0 && tb == 0 then CulpritA
    else if tb != 0 && ta == 0 then CulpritB
    else if ta != 0 then Both
    else Neither
  }

  /** Did this session, as far as its ring and record reach, differ from its own inputs? */
  predicate Drifted(d: Driver)
    requires |d.session.ring| == RING && d.session.recCount < |d.bad|
  {
    exists i :: 0 <= i < RING && 0 < d.session.ring[i].tick <= d.session.recCount && d.bad[d.session.ring[i].tick]
  }

  /** The peer that is named is exactly the one whose simulation drifted. */
  lemma CulpritIsRight(sa: State, a: Driver, ha: seq<u32>, ta: nat, sb: State, b: Driver, hb: seq<u32>, tb: nat)
    requires DriverInv(sa, a) && Quiescent(a) && Replays(ha, sa, a.session.rec, a.session.recCount)
    requires DriverInv(sb, b) && Quiescent(b) && Replays(hb, sb, b.session.rec, b.session.recCount)
    requires IsFirst(a.session.ring, ha, a.session.recCount, ta) && IsFirst(b.session.ring, hb, b.session.recCount, tb)
    ensures |a.session.ring| == RING == |b.session.ring| && a.session.recCount < |a.bad| && b.session.recCount < |b.bad|
    ensures Culprit(ta, tb) ==
      if Drifted(a) && !Drifted(b) then CulpritA else if Drifted(b) && !Drifted(a) then CulpritB
      else if Drifted(a) then Both else Neither
  {
    hide Replays, IsFirst, HandsOk, SnapsOk, RingOk, Truth, RecOk;
    ReplayVerdict(sa, a, ha, ta);
    ReplayVerdict(sb, b, hb, tb);
  }
}
