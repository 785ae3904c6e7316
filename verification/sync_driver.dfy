// The rollback library around the session, reduced to what it promises: it loads
// only a snapshot that the current history still explains. Under any such driver
// the history explains the live state, the snapshots and the hash ring.

module SyncDriver {
  import opened Basics
  import opened ArenaTypes
  import opened ArenaSim
  import opened ArenaBytes
  import opened SyncSession
  import ArenaRuns
  import ArenaMatch

  /** snaps: the latest snapshot of each tick that no later advance has outdated.
      hist: the inputs that lead to the front of the current history. bad: at which
      ticks of it the generator's low bit differs from an honest run's. */
  datatype Driver = Driver(session: Session, snaps: map<nat, State>, hist: seq<Inputs>, bad: seq<bool>)

  datatype Move = TakeSnapshot | Restore(tick: nat) | Forward(inputs: Inputs, rolling: bool) | Corrupt

  /** A restore needs a valid snapshot; the tick counter has not wrapped. */
  predicate Enabled(d: Driver, m: Move) {
    && Shape(d.session) && (forall t :: t in d.snaps ==> StateOk(d.snaps[t]))
    && d.session.state.tick <= |d.hist| && |d.bad| == |d.hist| + 1
    && (m.Restore? ==> m.tick in d.snaps)
    && (m.Forward? ==> d.session.state.tick + 1 < TWO32)
  }

  function Apply(d: Driver, m: Move): Driver
    requires Enabled(d, m)
  {
    var t := d.session.state.tick;
    match m
    case TakeSnapshot => d.(session := EventStep(d.session, Save), snaps := d.snaps[t := d.session.state])
    case Restore(u) => d.(session := EventStep(d.session, Load(d.snaps[u])))
    case Forward(q, rolling) =>
      Driver(AdvanceStep(d.session, q, rolling),
             map u | u in d.snaps && u <= t :: d.snaps[u],
             d.hist[..t] + [Masked(q, d.session.n)],
             d.bad[..t + 1] + [d.bad[t] != (d.session.pending && !rolling)])
    case Corrupt => d.(session := d.session.(pending := true))
  }

  function Begin(arena: ArenaId, n: u8, seed: bv32): Driver {
    Driver(Create(arena, n, seed), map[], [], [false])
  }

  // --------------------------------------------------------------- the truth

  /** The honest state after t ticks of the history. */
  function Honest(s0: State, hist: seq<Inputs>, t: nat): (s: State)
    requires StateOk(s0) && t <= |hist|
    ensures StateOk(s)
  {
    After(s0, hist[..t])
  }

  /** What the live session holds at that tick. */
  function Truth(s0: State, d: Driver, t: nat): State
    requires StateOk(s0) && t <= |d.hist| && t < |d.bad|
  {
    if d.bad[t] then Flipped(Honest(s0, d.hist, t)) else Honest(s0, d.hist, t)
  }

  predicate RingOk(s0: State, d: Driver)
    requires StateOk(s0) && |d.bad| == |d.hist| + 1 && |d.session.ring| == RING
  {
    forall i :: 0 <= i < RING && d.session.ring[i].tick != 0 ==> EntryOk(s0, d, d.session.ring[i], i)
  }

  predicate EntryOk(s0: State, d: Driver, e: TickHash, i: nat)
    requires StateOk(s0) && |d.bad| == |d.hist| + 1
  {
    e.tick % RING == i && (e.tick <= |d.hist| ==> e.hash == StateHash(Truth(s0, d, e.tick)))
  }

  predicate SnapsOk(s0: State, d: Driver)
    requires StateOk(s0) && |d.bad| == |d.hist| + 1
  {
    forall t :: t in d.snaps ==> t <= |d.hist| && d.snaps[t] == Truth(s0, d, t)
  }

  predicate RecOk(d: Driver) {
    && |d.session.rec| == MAX_TICKS && Min(|d.hist|, MAX_TICKS) <= d.session.recCount <= MAX_TICKS
    && forall t :: 0 <= t < |d.hist| && t < MAX_TICKS ==> d.session.rec[t] == d.hist[t]
  }

  predicate DriverInv(s0: State, d: Driver) {
    && StateOk(s0) && s0.tick == 0 && Shape(d.session)
    && |d.bad| == |d.hist| + 1 && !d.bad[0] && |d.hist| < TWO32
    && d.session.state.tick <= |d.hist| && d.session.state == Truth(s0, d, d.session.state.tick)
    && SnapsOk(s0, d) && RingOk(s0, d) && RecOk(d)
  }

  lemma TickCounts(s: State, q: Inputs)
    requires StateOk(s)
    ensures Tick(s, q).tick == (s.tick + 1) % TWO32
  {
    hide WorldStep, ResetWorld, HandsOk, MatchOver, AliveFrom, LastAlive;
  }

  lemma {:induction false} AfterTick(s: State, inputs: seq<Inputs>)
    requires StateOk(s) && s.tick + |inputs| < TWO32
    ensures After(s, inputs).tick == s.tick + |inputs|
    decreases |inputs|
  {
    hide Tick, HandsOk;
    if inputs != [] {
      TickCounts(s, inputs[0]);
      AfterTick(Tick(s, inputs[0]), inputs[1..]);
    }
  }

  lemma TruthTick(s0: State, d: Driver, t: nat)
    requires StateOk(s0) && s0.tick == 0 && t <= |d.hist| < TWO32 && |d.bad| == |d.hist| + 1
    ensures Truth(s0, d, t).tick == t && StateOk(Truth(s0, d, t))
  {
    hide After, HandsOk, FlipBit;
    AfterTick(s0, d.hist[..t]);
  }

  lemma AfterOneMore(s0: State, hist: seq<Inputs>, q: Inputs)
    requires StateOk(s0)
    ensures After(s0, hist + [q]) == Tick(After(s0, hist), q)
  {
    hide Tick, HandsOk;
    ArenaMatch.AfterSplit(s0, hist, [q]);
    var s := After(s0, hist);
    assert After(s, [q]) == After(Tick(s, q), [q][1..]) == Tick(s, q);
  }

  /** A tick of a flipped state is the flipped tick: the generator is carried along. */
  lemma FlippedTick(s: State, q: Inputs)
    requires StateOk(s)
    ensures StateOk(Flipped(s)) && Tick(Flipped(s), q) == Flipped(Tick(s, q))
  {
    hide Tick, HandsOk, FlipBit;
    ArenaRuns.TickIgnoresRng(s, FlipBit(s.rng), q);
  }

  /** Histories that agree up to t tell the same truth there. */
  lemma TruthPersists(s0: State, d: Driver, e: Driver, t: nat)
    requires StateOk(s0) && t <= |d.hist| && t <= |e.hist| && t < |d.bad| && t < |e.bad|
    requires d.hist[..t] == e.hist[..t] && d.bad[t] == e.bad[t]
    ensures Truth(s0, d, t) == Truth(s0, e, t)
  {
    hide After, HandsOk;
  }

  function Marred(s: State, bad: bool): State {
    if bad then Flipped(s) else s
  }

  /** Corrupting now toggles what was corrupted before. */
  lemma MarredTick(h: State, q: Inputs, bad: bool, flip: bool)
    requires StateOk(h)
    ensures StateOk(Marred(h, bad)) && Marred(Tick(Marred(h, bad), q), flip) == Marred(Tick(h, q), bad != flip)
  {
    hide Tick, HandsOk, FlipBit;
    FlippedTick(h, q);
    FlipTwice(Tick(h, q).rng);
  }

  lemma AdvanceState(s: Session, q: Inputs, rolling: bool)
    requires Shape(s)
    ensures AdvanceStep(s, q, rolling).state == Marred(Tick(s.state, Masked(q, s.n)), s.pending && !rolling)
  {
    hide Tick, HandsOk, StateHash;
  }

  /** The new front of an advance. */
  lemma ForwardTruth(s0: State, d: Driver, q: Inputs, rolling: bool)
    requires DriverInv(s0, d) && Enabled(d, Forward(q, rolling))
    ensures var e := Apply(d, Forward(q, rolling));
      var t := d.session.state.tick;
      && |e.hist| == t + 1 && |e.bad| == t + 2
      && e.session.state == Truth(s0, e, t + 1) && e.session.state.tick == t + 1
  {
    hide After, Tick, RingOk, SnapsOk, RecOk, Shape, AdvanceStep;
    var t := d.session.state.tick;
    var in' := Masked(q, d.session.n);
    var flip := d.session.pending && !rolling;
    var e := Apply(d, Forward(q, rolling));
    assert e.hist[..t + 1] == d.hist[..t] + [in'];
    AfterOneMore(s0, d.hist[..t], in');
    MarredTick(Honest(s0, d.hist, t), in', d.bad[t], flip);
    AdvanceState(d.session, q, rolling);
    AfterTick(s0, e.hist[..t + 1]);
  }

  lemma ForwardKeepsTruth(s0: State, d: Driver, q: Inputs, rolling: bool, u: nat)
    requires DriverInv(s0, d) && Enabled(d, Forward(q, rolling)) && u <= d.session.state.tick
    ensures var e := Apply(d, Forward(q, rolling));
      u <= |e.hist| && u < |e.bad| && Truth(s0, e, u) == Truth(s0, d, u)
  {
    hide After, AdvanceStep, HandsOk, RingOk, SnapsOk, RecOk, Truth;
    var e := Apply(d, Forward(q, rolling));
    assert e.hist[..u] == d.hist[..u];
    TruthPersists(s0, d, e, u);
  }

  lemma ForwardRing(s0: State, d: Driver, q: Inputs, rolling: bool)
    requires DriverInv(s0, d) && Enabled(d, Forward(q, rolling))
    ensures var e := Apply(d, Forward(q, rolling));
      |e.bad| == |e.hist| + 1 && |e.session.ring| == RING && RingOk(s0, e)
  {
    hide After, AdvanceStep, Apply, HandsOk, SnapsOk, RecOk, RingOk, Truth, StateHash, Shape;
    ForwardTruth(s0, d, q, rolling);
    var e := Apply(d, Forward(q, rolling));
    ForwardRingShape(d, q, rolling);
    forall i | 0 <= i < RING && e.session.ring[i].tick != 0 ensures EntryOk(s0, e, e.session.ring[i], i) {
      ForwardEntry(s0, d, q, rolling, i);
    }
    RingFrom(s0, e);
  }

  lemma RingFrom(s0: State, d: Driver)
    requires StateOk(s0) && |d.bad| == |d.hist| + 1 && |d.session.ring| == RING
    requires forall i :: 0 <= i < RING && d.session.ring[i].tick != 0 ==> EntryOk(s0, d, d.session.ring[i], i)
    ensures RingOk(s0, d)
  {
    hide EntryOk;
  }

  lemma RingAt(s0: State, d: Driver, i: nat)
    requires DriverInv(s0, d) && i < RING && d.session.ring[i].tick != 0
    ensures EntryOk(s0, d, d.session.ring[i], i)
  {
    hide EntryOk, SnapsOk, RecOk, Truth, HandsOk;
  }

  /** One slot of the ring after an advance: the front's own, or as it was. */
  lemma ForwardEntry(s0: State, d: Driver, q: Inputs, rolling: bool, i: nat)
    requires DriverInv(s0, d) && Enabled(d, Forward(q, rolling)) && i < RING
    requires var e := Apply(d, Forward(q, rolling));
      && |e.bad| == |e.hist| + 1 && |e.hist| == d.session.state.tick + 1 && |e.session.ring| == RING == |d.session.ring|
      && e.session.state == Truth(s0, e, |e.hist|) && e.session.state.tick == |e.hist|
      && e.session.ring == d.session.ring[e.session.state.tick % RING := TickHash(e.session.state.tick,
         StateHash(e.session.state))]
      && e.session.ring[i].tick != 0
    ensures var e := Apply(d, Forward(q, rolling)); EntryOk(s0, e, e.session.ring[i], i)
  {
    hide After, AdvanceStep, Apply, HandsOk, SnapsOk, RecOk, RingOk, Truth, StateHash, Shape;
    var e := Apply(d, Forward(q, rolling));
    var t := d.session.state.tick;
    var x := e.session.ring[i];
    if i != (t + 1) % RING {
      RingAt(s0, d, i);
      if x.tick <= |e.hist| {
        NotTheFront(x.tick, t, i);
        ForwardKeepsTruth(s0, d, q, rolling, x.tick);
      }
    }
  }

  /** Another slot's entry cannot be the front's. */
  lemma NotTheFront(x: nat, t: nat, i: nat)
    requires x <= t + 1 && x % RING == i && i != (t + 1) % RING
    ensures x <= t
  {
  }

  lemma ForwardRingShape(d: Driver, q: Inputs, rolling: bool)
    requires Enabled(d, Forward(q, rolling))
    ensures var e := Apply(d, Forward(q, rolling));
      var st := e.session.state;
      |e.session.ring| == RING && |d.session.ring| == RING
      && e.session.ring == d.session.ring[st.tick % RING := TickHash(st.tick, StateHash(st))]
  {
    hide Tick, HandsOk, StateHash;
  }

  lemma ForwardRec(s0: State, d: Driver, q: Inputs, rolling: bool)
    requires DriverInv(s0, d) && Enabled(d, Forward(q, rolling))
    ensures RecOk(Apply(d, Forward(q, rolling)))
  {
    hide Tick, HandsOk, StateHash, SnapsOk, RingOk, Truth;
  }

  lemma ForwardSnaps(s0: State, d: Driver, q: Inputs, rolling: bool)
    requires DriverInv(s0, d) && Enabled(d, Forward(q, rolling))
    ensures var e := Apply(d, Forward(q, rolling)); |e.bad| == |e.hist| + 1 && SnapsOk(s0, e)
  {
    ForwardTruth(s0, d, q, rolling);
    hide After, AdvanceStep, HandsOk, RingOk, RecOk, Truth, Shape;
    var e := Apply(d, Forward(q, rolling));
    forall u | u in e.snaps ensures u <= |e.hist| && e.snaps[u] == Truth(s0, e, u) {
      ForwardKeepsTruth(s0, d, q, rolling, u);
    }
  }

  lemma ForwardFirst(s0: State, d: Driver, q: Inputs, rolling: bool)
    requires DriverInv(s0, d) && Enabled(d, Forward(q, rolling))
    ensures var e := Apply(d, Forward(q, rolling)); Shape(e.session) && e.bad != [] && !e.bad[0]
  {
    hide AdvanceStep, HandsOk, RingOk, RecOk, SnapsOk, Truth, Shape;
  }

  lemma ForwardKeeps(s0: State, d: Driver, q: Inputs, rolling: bool)
    requires DriverInv(s0, d) && Enabled(d, Forward(q, rolling))
    ensures DriverInv(s0, Apply(d, Forward(q, rolling)))
  {
    hide After, Apply, AdvanceStep, HandsOk, RingOk, RecOk, SnapsOk, Truth, Shape, Enabled;
    ForwardTick(d, q, rolling);
    ForwardTruth(s0, d, q, rolling);
    ForwardRing(s0, d, q, rolling);
    ForwardRec(s0, d, q, rolling);
    ForwardSnaps(s0, d, q, rolling);
    ForwardFirst(s0, d, q, rolling);
  }

  lemma ForwardTick(d: Driver, q: Inputs, rolling: bool)
    requires Enabled(d, Forward(q, rolling))
    ensures d.session.state.tick + 1 < TWO32
  {
  }

  lemma OtherKeeps(s0: State, d: Driver, m: Move)
    requires DriverInv(s0, d) && Enabled(d, m) && !m.Forward?
    ensures DriverInv(s0, Apply(d, m))
  {
    hide After, HandsOk, StateHash, FlipBit;
    var e := Apply(d, m);
    assert forall t :: 0 <= t <= |d.hist| ==> Truth(s0, e, t) == Truth(s0, d, t);
    if m.Restore? {
      TruthTick(s0, d, m.tick);
    }
    hide Truth;
    assert forall i :: 0 <= i < RING && e.session.ring[i].tick != 0 ==> EntryOk(s0, d, e.session.ring[i], i);
    assert RingOk(s0, e);
    assert SnapsOk(s0, e);
    assert RecOk(e);
  }

  /** Every move keeps the history's explanation of everything held. */
  lemma MoveKeeps(s0: State, d: Driver, m: Move)
    requires DriverInv(s0, d) && Enabled(d, m)
    ensures DriverInv(s0, Apply(d, m))
  {
    hide DriverInv, Enabled;
    match m {
      case Forward(q, rolling) => ForwardKeeps(s0, d, q, rolling);
      case _ => OtherKeeps(s0, d, m);
    }
  }

  lemma BeginInv(arena: ArenaId, n: u8, seed: bv32)
    ensures DriverInv(Init(arena, n, seed), Begin(arena, n, seed))
  {
    hide ResetWorld, HandsOk, StateHash;
    var s0 := Init(arena, n, seed);
    assert After(s0, []) == s0;
    assert Begin(arena, n, seed).hist[..0] == [];
  }

  // ------------------------------------------------------------------- runs

  predicate Runs(d: Driver, ms: seq<Move>)
    decreases |ms|
  {
    ms == [] || (Enabled(d, ms[0]) && Runs(Apply(d, ms[0]), ms[1..]))
  }

  function Final(d: Driver, ms: seq<Move>): Driver
    requires Runs(d, ms)
    decreases |ms|
  {
    if ms == [] then d else Final(Apply(d, ms[0]), ms[1..])
  }

  lemma {:induction false} RunKeeps(s0: State, d: Driver, ms: seq<Move>)
    requires DriverInv(s0, d) && Runs(d, ms)
    ensures DriverInv(s0, Final(d, ms))
    decreases |ms|
  {
    hide DriverInv, Enabled, Apply;
    if ms != [] {
      MoveKeeps(s0, d, ms[0]);
      RunKeeps(s0, Apply(d, ms[0]), ms[1..]);
    }
  }

  /** No tick of the history differs from an honest run's. */
  predicate Clean(d: Driver) {
    !d.session.pending && forall t :: 0 <= t < |d.bad| ==> !d.bad[t]
  }

  predicate NeverCorrupts(ms: seq<Move>) {
    forall k :: 0 <= k < |ms| ==> !ms[k].Corrupt?
  }

  lemma CleanStep(d: Driver, m: Move)
    requires Enabled(d, m) && Clean(d) && !m.Corrupt?
    ensures Clean(Apply(d, m))
  {
    hide Tick, HandsOk, StateHash;
  }

  lemma {:induction false} CleanRun(d: Driver, ms: seq<Move>)
    requires Runs(d, ms) && Clean(d) && NeverCorrupts(ms)
    ensures Clean(Final(d, ms))
    decreases |ms|
  {
    hide Apply, Enabled, Clean;
    if ms != [] {
      assert !ms[0].Corrupt?;
      CleanStep(d, ms[0]);
      CleanRun(Apply(d, ms[0]), ms[1..]);
    }
  }

  /** Re-simulated back to the front: nothing on record is newer than the history. */
  predicate Quiescent(d: Driver) {
    d.session.recCount <= |d.hist|
  }

  /** Rollback explains the present: after any run without corruption, whatever was
      loaded and re-simulated, the live state is the fold of the tick over the
      recorded inputs from the initial state, and so is every snapshot the ring
      still hashes up to the front. */
  lemma RollbackExplains(arena: ArenaId, n: u8, seed: bv32, ms: seq<Move>)
    requires Runs(Begin(arena, n, seed), ms) && NeverCorrupts(ms)
    ensures var d := Final(Begin(arena, n, seed), ms);
      var s := d.session;
      && |s.rec| == MAX_TICKS && |s.ring| == RING && s.state.tick <= |d.hist|
      && (s.state.tick <= MAX_TICKS ==> s.state == After(Init(arena, n, seed), s.rec[..s.state.tick]))
      && (forall t: u32 :: 0 < t <= |d.hist| && t <= MAX_TICKS && s.ring[t % RING].tick == t ==>
            HashAt(s, t) == StateHash(After(Init(arena, n, seed), s.rec[..t])))
  {
    hide After, Init, HandsOk, StateHash, Runs, Final, Begin;
    var s0 := Init(arena, n, seed);
    BeginInv(arena, n, seed);
    RunKeeps(s0, Begin(arena, n, seed), ms);
    CleanRun(Begin(arena, n, seed), ms) by { BeginClean(arena, n, seed); }
    var d := Final(Begin(arena, n, seed), ms);
    RecordExplains(s0, d);
  }

  lemma BeginClean(arena: ArenaId, n: u8, seed: bv32)
    ensures Clean(Begin(arena, n, seed))
  {
    hide Init;
  }

  lemma RecPrefix(d: Driver, t: nat)
    requires RecOk(d) && t <= |d.hist| && t <= MAX_TICKS
    ensures d.session.rec[..t] == d.hist[..t]
  {
  }

  lemma RecordExplains(s0: State, d: Driver)
    requires DriverInv(s0, d) && Clean(d)
    ensures var s := d.session;
      && |s.rec| == MAX_TICKS && |s.ring| == RING && s.state.tick <= |d.hist|
      && (s.state.tick <= MAX_TICKS ==> s.state == After(s0, s.rec[..s.state.tick]))
      && (forall t: u32 :: 0 < t <= |d.hist| && t <= MAX_TICKS && s.ring[t % RING].tick == t ==>
            HashAt(s, t) == StateHash(After(s0, s.rec[..t])))
  {
    hide After, HandsOk, StateHash;
    var s := d.session;
    if s.state.tick <= MAX_TICKS {
      RecPrefix(d, s.state.tick);
    }
    forall t: u32 | 0 < t <= |d.hist| && t <= MAX_TICKS && s.ring[t % RING].tick == t
      ensures HashAt(s, t) == StateHash(After(s0, s.rec[..t]))
    {
      assert EntryOk(s0, d, s.ring[t % RING], t % RING);
      RecPrefix(d, t);
    }
  }
}
