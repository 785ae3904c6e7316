// The rollback session: the save, load and advance loop with its input history
// and hash ring, and the object that runs it.

module SyncSession {
  import opened Basics
  import opened ArenaTypes
  import opened ArenaSim
  import opened ArenaBytes

  const MAX_TICKS := 36000
  const RING := 256

  type Inputs = Quad<u16>

  datatype TickHash = TickHash(tick: u32, hash: u32)

  datatype Session = Session(
    state: State, rec: seq<Inputs>, recCount: nat, ring: seq<TickHash>, pending: bool, n: u8)

  predicate Shape(s: Session) {
    |s.rec| == MAX_TICKS && |s.ring| == RING && s.recCount <= MAX_TICKS && StateOk(s.state)
  }

  /** What the session is asked to do; a load brings the bytes an earlier save took. */
  datatype GameEvent = Save | Load(snapshot: State) | Advance(inputs: Inputs, rolling: bool)

  /** Slots beyond the player count run with no input. */
  function Masked(q: Inputs, n: u8): Inputs {
    Quad(if 0 < n then q.x0 else 0, if 1 < n then q.x1 else 0, if 2 < n then q.x2 else 0, if 3 < n then q.x3 else 0)
  }

  function Flipped(s: State): State {
    s.(rng := FlipBit(s.rng))
  }

  lemma FlippedOk(s: State)
    requires StateOk(s)
    ensures StateOk(Flipped(s))
  {
    hide FlipBit;
  }

  /** The advance: record, tick, perhaps corrupt, then hash into the ring. */
  function AdvanceStep(s: Session, q: Inputs, rolling: bool): (r: Session)
    requires Shape(s)
    ensures Shape(r)
  {
    var in' := Masked(q, s.n);
    var t := s.state.tick;
    var flip := s.pending && !rolling;
    var ticked := Tick(s.state, in');
    FlippedOk(ticked);
    var st := if flip then Flipped(ticked) else ticked;
    s.(rec := if t < MAX_TICKS then s.rec[t := in'] else s.rec,
       recCount := if t < MAX_TICKS then Max(s.recCount, t + 1) else s.recCount,
       state := st, pending := s.pending && !flip,
       ring := s.ring[st.tick % RING := TickHash(st.tick, StateHash(st))])
  }

  predicate Sound(e: GameEvent) {
    e.Load? ==> StateOk(e.snapshot)
  }

  function EventStep(s: Session, e: GameEvent): (r: Session)
    requires Shape(s) && Sound(e)
    ensures Shape(r)
  {
    match e
    case Save => s
    case Load(snapshot) => s.(state := snapshot)
    case Advance(q, rolling) => AdvanceStep(s, q, rolling)
  }

  predicate AllSound(es: seq<GameEvent>) {
    forall k :: 0 <= k < |es| ==> Sound(es[k])
  }

  function EventsFrom(s: Session, es: seq<GameEvent>): (r: Session)
    requires Shape(s) && AllSound(es)
    ensures Shape(r)
    decreases |es|
  {
    if es == [] then s else EventsFrom(EventStep(s, es[0]), es[1..])
  }

  /** What the saves of a batch hand back: the state and its checksum. */
  function SavedBy(s: Session, es: seq<GameEvent>): seq<(State, u32)>
    requires Shape(s) && AllSound(es)
    decreases |es|
  {
    if es == [] then []
    else (if es[0].Save? then [(s.state, StateHash(s.state))] else []) + SavedBy(EventStep(s, es[0]), es[1..])
  }

  function FreshIn(es: seq<GameEvent>): nat {
    if es == [] then 0 else (if es[0].Advance? && !es[0].rolling then 1 else 0) + FreshIn(es[1..])
  }

  /** sync_hash_at: 0 when the ring no longer holds that tick. */
  function HashAt(s: Session, tick: u32): u32
    requires |s.ring| == RING
  {
    if s.ring[tick % RING].tick == tick then s.ring[tick % RING].hash else 0
  }

  function Create(arena: ArenaId, n: u8, seed: bv32): (s: Session)
    ensures Shape(s)
  {
    Session(Init(arena, n, seed), seq(MAX_TICKS, _ => Same(0)), 0, seq(RING, _ => TickHash(0, 0)), false, n)
  }

  // ---------------------------------------------------------------- the object

  lemma EventsUnroll(s: Session, es: seq<GameEvent>, i: nat)
    requires Shape(s) && AllSound(es) && i < |es|
    ensures AllSound(es[i..]) && AllSound(es[i + 1..]) && Sound(es[i])
    ensures EventsFrom(s, es[i..]) == EventsFrom(EventStep(s, es[i]), es[i + 1..])
    ensures SavedBy(s, es[i..]) ==
      (if es[i].Save? then [(s.state, StateHash(s.state))] else []) + SavedBy(EventStep(s, es[i]), es[i + 1..])
    ensures FreshIn(es[i..]) == (if es[i].Advance? && !es[i].rolling then 1 else 0) + FreshIn(es[i + 1..])
  {
    hide EventStep, Shape, StateHash;
    assert es[i..][0] == es[i] && es[i..][1..] == es[i + 1..];
  }

  lemma LoadShape(s: Session, snapshot: State)
    requires Shape(s) && Sound(Load(snapshot))
    ensures Shape(s.(state := snapshot))
  {
  }

  class Live {
    var state: State
    const rec: array<Inputs>
    var recCount: nat
    const ring: array<TickHash>
    var pending: bool
    const n: u8

    ghost predicate Valid()
      reads this, rec, ring
    {
      rec.Length == MAX_TICKS && ring.Length == RING && Shape(Value())
    }

    ghost function Value(): Session
      reads this, rec, ring
    {
      Session(state, rec[..], recCount, ring[..], pending, n)
    }

    constructor (arena: ArenaId, players: u8, seed: bv32)
      ensures Valid() && fresh(rec) && fresh(ring) && Value() == Create(arena, players, seed)
    {
      state := Init(arena, players, seed);
      rec := new Inputs[MAX_TICKS](_ => Same(0));
      ring := new TickHash[RING](_ => TickHash(0, 0));
      recCount, pending, n := 0, false, players;
      new;
      assert rec[..] == seq(MAX_TICKS, _ => Same(0));
      assert ring[..] == seq(RING, _ => TickHash(0, 0));
    }

    /** sync_debug_corrupt. */
    method Corrupt()
      requires Valid()
      modifies this`pending
      ensures Valid() && Value() == old(Value()).(pending := true)
    {
      pending := true;
    }

    method DoAdvance(q: Inputs, rolling: bool)
      requires Valid()
      modifies this, rec, ring
      ensures Valid() && Value() == AdvanceStep(old(Value()), q, rolling)
    {
      hide Tick, StateHash, Masked, HandsOk, Sized;
      var in' := Masked(q, n);
      var t := state.tick;
      if t < MAX_TICKS {
        rec[t] := in';
        if t + 1 > recCount {
          recCount := t + 1;
        }
      }
      state := Tick(state, in');
      if pending && !rolling {
        state := Flipped(state);
        pending := false;
      }
      ring[state.tick % RING] := TickHash(state.tick, StateHash(state));
    }

    /** sync_frame's event loop; returns how many fresh ticks ran and what was saved. */
    method Frame(es: seq<GameEvent>) returns (fresh': nat, saved: seq<(State, u32)>)
      requires Valid() && AllSound(es)
      modifies this, rec, ring
      ensures Valid() && Value() == EventsFrom(old(Value()), es)
      ensures saved == SavedBy(old(Value()), es) && fresh' == FreshIn(es)
    {
      hide AdvanceStep, Shape, StateHash, Sound;
      fresh', saved := 0, [];
      var i := 0;
      assert es[0..] == es;
      while i < |es|
        invariant 0 <= i <= |es| && Valid() && AllSound(es[i..])
        invariant EventsFrom(Value(), es[i..]) == EventsFrom(old(Value()), es)
        invariant saved + SavedBy(Value(), es[i..]) == SavedBy(old(Value()), es)
        invariant fresh' + FreshIn(es[i..]) == FreshIn(es)
      {
        EventsUnroll(Value(), es, i);
        match es[i] {
          case Save => saved := saved + [(state, StateHash(state))];
          case Load(snapshot) =>
            LoadShape(Value(), snapshot);
            state := snapshot;
          case Advance(q, rolling) =>
            DoAdvance(q, rolling);
            if !rolling {
              fresh' := fresh' + 1;
            }
        }
        i := i + 1;
      }
      assert es[i..] == [];
    }
  }
}
