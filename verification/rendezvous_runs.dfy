// The server over whole runs: any messages from anyone, any ticks, times that
// never go back. Nothing is assumed about the senders.

module RendezvousRuns {
  import opened Basics
  import opened LobbyTypes
  import opened Scan
  import opened Rendezvous
  import opened RendezvousTable
  import RendezvousTick

  /** One call into the server at a true time in milliseconds; the server only
      sees the time's low 32 bits. */
  datatype Event = Receive(at: nat, from: Endpoint, msg: Msg) | Ticks(at: nat)

  function Clock(at: nat): u32 {
    at % TWO32
  }

  function Take(sv: Server, ev: Event): (Server, seq<Out>)
    requires |sv.rate| == RATE_BUCKETS
  {
    match ev
    case Receive(at, from, msg) => Handle(sv, Clock(at), from, msg)
    case Ticks(at) => Tick(sv, Clock(at))
  }

  predicate ServerInv(sv: Server) {
    TableInv(sv.sessions) && |sv.rate| == RATE_BUCKETS
  }

  /** A lobby opened just now: nothing recorded about any pair, active at this moment. */
  predicate JustOpened(t: Session, now: u32) {
    t.phase == Lobby && t.pairs == NO_CELLS && t.lastActivity == now
  }

  /** What one event does to one slot of the table: a live session is reaped by
      an expiring tick or evolves, a free one stays free or is opened afresh. */
  predicate SlotStep(s: Session, t: Session, ev: Event) {
    if s.phase == Free then t == CLEARED || JustOpened(t, Clock(ev.at))
    else if t.phase == Free then ev.Ticks? && Expired(s, Clock(ev.at))
    else Evolves(s, t)
  }

  lemma InitInv(now: u32, seed: bv32)
    ensures ServerInv(Init(now, seed))
  {
    assert forall i :: 0 <= i < MAX_SESSIONS ==> Init(now, seed).sessions[i] == CLEARED;
  }

  lemma PickKeepsPairs(sv: Server, now: u32, from: Endpoint, m: Msg, i: nat)
    requires TableInv(sv.sessions) && m.HostReq? && i < |sv.sessions| && sv.sessions[i].phase == Free
    ensures var t := HandleHostReq(sv, now, from, m).0.sessions[i]; t == CLEARED || JustOpened(t, now)
  {
    hide PickId, ResendIntros;
    assert SessionInv(sv.sessions[i]);
  }

  lemma FreeSlots(sv: Server, now: u32, from: Endpoint, m: Msg, i: nat)
    requires TableInv(sv.sessions) && i < |sv.sessions| && sv.sessions[i].phase == Free
    ensures var tt := Dispatch(sv, now, from, m).0.sessions;
      |tt| == |sv.sessions| && (tt[i] == CLEARED || JustOpened(tt[i], now))
  {
    assert sv.sessions[i] == CLEARED by { assert SessionInv(sv.sessions[i]); }
    hide SessionInv, Join, Report, BeginStart, Ack, Keep, Forward, HandleHostReq, RelayAccepted, TableInv;
    if m.HostReq? {
      PickKeepsPairs(sv, now, from, m, i);
      DispatchKeeps(sv, now, from, m);
    }
  }

  lemma HandleSlots(sv: Server, now: u32, from: Endpoint, m: Msg, i: nat)
    requires ServerInv(sv) && i < |sv.sessions|
    ensures var tt := Handle(sv, now, from, m).0.sessions;
      && |tt| == |sv.sessions|
      && if sv.sessions[i].phase == Free then tt[i] == CLEARED || JustOpened(tt[i], now)
         else tt[i].phase != Free && Evolves(sv.sessions[i], tt[i])
  {
    HandleKeeps(sv, now, from, m);
    var s := sv.sessions[i];
    if s.phase == Free {
      assert s == CLEARED by { assert SessionInv(s); }
      hide Dispatch, TableInv, RateTake;
      var (b, ok) := RateTake(sv.rate[from.ip % RATE_BUCKETS], now);
      FreeSlots(if m.Relay? then sv else sv.(rate := sv.rate[from.ip % RATE_BUCKETS := b]), now, from, m, i);
    } else {
      hide Handle, TableInv, Evolves;
      assert Evolves(s, Handle(sv, now, from, m).0.sessions[i]);
      EvolvesLive(s, Handle(sv, now, from, m).0.sessions[i]);
    }
  }

  lemma EvolvesLive(s: Session, t: Session)
    requires Evolves(s, t)
    ensures t.phase != Free
  {
  }

  lemma RestampEvolves(s: Session, t: Session)
    requires s.phase != Free && t == s.(lastRefan := t.lastRefan)
    ensures Evolves(s, t)
  {
  }

  /** The table invariant and the life cycle of every slot hold over any event. */
  lemma TakeKeeps(sv: Server, ev: Event)
    requires ServerInv(sv)
    ensures var (sw, out) := Take(sv, ev);
      ServerInv(sw) && |sw.sessions| == |sv.sessions|
      && forall i :: 0 <= i < |sv.sessions| ==> SlotStep(sv.sessions[i], sw.sessions[i], ev)
  {
    hide TableInv, Evolves, Handle, Tick, Expired, Advances;
    match ev {
      case Receive(at, from, msg) =>
        HandleKeeps(sv, Clock(at), from, msg);
        forall i | 0 <= i < |sv.sessions| ensures SlotStep(sv.sessions[i], Take(sv, ev).0.sessions[i], ev) {
          HandleSlots(sv, Clock(at), from, msg, i);
        }
        HandleLength(sv, Clock(at), from, msg);
      case Ticks(at) =>
        RendezvousTick.TickKeeps(sv, Clock(at));
        var tt := Tick(sv, Clock(at)).0.sessions;
        forall i | 0 <= i < |sv.sessions| ensures SlotStep(sv.sessions[i], tt[i], ev) {
          if sv.sessions[i].phase == Free {
            FreeIsCleared(sv.sessions, i);
          }
          if tt[i].phase == Free {
            FreeIsCleared(tt, i);
          }
          TickSlot(sv.sessions[i], tt[i], ev);
        }
    }
  }

  lemma HandleLength(sv: Server, now: u32, from: Endpoint, m: Msg)
    requires ServerInv(sv)
    ensures |Handle(sv, now, from, m).0.sessions| == |sv.sessions|
  {
    HandleKeeps(sv, now, from, m);
    hide TableInv, Handle;
  }

  lemma FreeIsCleared(ss: seq<Session>, i: nat)
    requires TableInv(ss) && i < |ss| && ss[i].phase == Free
    ensures ss[i] == CLEARED
  {
    assert SessionInv(ss[i]);
  }

  lemma TickSlot(s: Session, t: Session, ev: Event)
    requires ev.Ticks? && t == if Expired(s, Clock(ev.at)) then CLEARED else s.(lastRefan := t.lastRefan)
    requires (s.phase == Free ==> s == CLEARED) && (t.phase == Free ==> t == CLEARED)
    ensures SlotStep(s, t, ev)
  {
    hide Evolves, HasRelay;
    if s.phase != Free && t.phase != Free {
      RestampEvolves(s, t);
    }
  }

  // ------------------------------------------------------------------ traces

  /** A run from a server booted at bootMs: states[n+1] is states[n] after events[n], at times that never go back. */
  datatype Trace = Trace(bootMs: nat, seed: bv32, states: seq<Server>, events: seq<Event>)

  predicate Valid(tr: Trace) {
    && |tr.states| == |tr.events| + 1
    && tr.states[0] == Init(Clock(tr.bootMs), tr.seed)
    && (forall n :: 0 <= n < |tr.events| ==>
          |tr.states[n].rate| == RATE_BUCKETS && tr.states[n + 1] == Take(tr.states[n], tr.events[n]).0)
    && (forall m, n :: 0 <= m <= n < |tr.events| ==> tr.events[m].at <= tr.events[n].at)
    && (tr.events != [] ==> tr.bootMs <= tr.events[0].at)
  }

  /** Every state of every run satisfies the table invariant. */
  lemma {:induction false} TableInvOverRuns(tr: Trace, n: nat)
    requires Valid(tr) && n <= |tr.events|
    ensures ServerInv(tr.states[n]) && |tr.states[n].sessions| == MAX_SESSIONS
  {
    hide ServerInv, Take;
    if n == 0 {
      InitInv(Clock(tr.bootMs), tr.seed);
    } else {
      TableInvOverRuns(tr, n - 1);
      TakeKeeps(tr.states[n - 1], tr.events[n - 1]);
    }
  }

  function At(tr: Trace, n: nat, i: nat): Session
    requires n < |tr.states| && i < |tr.states[n].sessions|
  {
    tr.states[n].sessions[i]
  }

  /** Slot i holds one and the same session in all the states from m to n. */
  predicate Lives(tr: Trace, i: nat, m: nat, n: nat) {
    m <= n < |tr.states| && forall k :: m <= k <= n ==> i < |tr.states[k].sessions| && At(tr, k, i).phase != Free
  }

  lemma StepOf(tr: Trace, n: nat, i: nat)
    requires Valid(tr) && n < |tr.events| && i < MAX_SESSIONS
    ensures i < |tr.states[n].sessions| && i < |tr.states[n + 1].sessions|
    ensures SlotStep(At(tr, n, i), At(tr, n + 1, i), tr.events[n])
  {
    hide SlotStep, ServerInv, Take;
    TableInvOverRuns(tr, n);
    TableInvOverRuns(tr, n + 1);
    TakeKeeps(tr.states[n], tr.events[n]);
  }

  lemma {:induction false} LifeEvolves(tr: Trace, i: nat, m: nat, n: nat)
    requires Valid(tr) && i < MAX_SESSIONS && Lives(tr, i, m, n)
    ensures Evolves(At(tr, m, i), At(tr, n, i))
    decreases n - m
  {
    hide Evolves, Take;
    if m == n {
      EvolvesRefl(At(tr, m, i));
    } else {
      LifeEvolves(tr, i, m, n - 1);
      StepOf(tr, n - 1, i);
      EvolvesTrans(At(tr, m, i), At(tr, n - 1, i), At(tr, n, i));
    }
  }
}
