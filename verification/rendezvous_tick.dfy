// The periodic tick, session by session.

module RendezvousTick {
  import opened Basics
  import opened LobbyTypes
  import opened Rendezvous
  import opened RendezvousTable

  predicate TickOutput(ss: seq<Session>, now: u32, j: nat, o: Out) {
    j < |ss| && o in TickSession(ss[j], now).1
  }

  /** The loop over the table treats every session alike and independently. */
  lemma {:induction false} TickFromIs(sv: Server, now: u32, i: nat)
    ensures var (sw, out) := TickFrom(sv, now, i);
      && sw == sv.(sessions := sw.sessions) && |sw.sessions| == |sv.sessions|
      && (forall j :: 0 <= j < |sv.sessions| ==>
            sw.sessions[j] == if i <= j then TickSession(sv.sessions[j], now).0 else sv.sessions[j])
      && (forall o :: o in out ==> exists j :: TickOutput(sv.sessions, now, j, o))
    decreases |sv.sessions| - i
  {
    hide TickSession;
    if i < |sv.sessions| {
      var (s, out) := TickSession(sv.sessions[i], now);
      var next := sv.(sessions := sv.sessions[i := s]);
      TickFromIs(next, now, i + 1);
      var (rest, more) := TickFrom(next, now, i + 1);
      forall o | o in out + more ensures exists j :: TickOutput(sv.sessions, now, j, o) {
        if o in out {
          assert TickOutput(sv.sessions, now, i, o);
        } else {
          LaterOutput(sv.sessions, next.sessions, now, i, o);
        }
      }
    }
  }

  lemma LaterOutput(ss: seq<Session>, tt: seq<Session>, now: u32, i: nat, o: Out)
    requires i < |ss| && tt == ss[i := TickSession(ss[i], now).0]
    requires exists j :: TickOutput(tt, now, j, o)
    ensures exists j :: TickOutput(ss, now, j, o)
  {
    var j :| TickOutput(tt, now, j, o);
    if j == i {
      TickTwice(ss[i], now, o);
    }
    assert TickOutput(ss, now, j, o);
  }

  /** Ticked again at once, a session has nothing more to say. */
  lemma TickTwice(s: Session, now: u32, o: Out)
    ensures o !in TickSession(TickSession(s, now).0, now).1
  {
  }

  lemma RefanKeeps(s: Session, now: u32)
    requires SessionInv(s) && s.phase != Free
    ensures var (t, out) := Refan(s, now);
      && SessionInv(t) && Evolves(s, t) && AllTruthful(t, out) && t == s.(lastRefan := t.lastRefan)
      && forall o :: o in out ==> t.start.Some? && o.msg == Start(t.start.value)
  {
    EvolvesRefl(s);
    var (t, out) := Refan(s, now);
    if s.phase == Starting && Elapsed(now, s.lastRefan) >= START_REFAN_MS {
      FanStartTruthful(s, true, 0);
      hide FanStart, Quad.At, Grid.At, CellsOk, PeersOk;
    }
  }

  /** A tick keeps the table: a session is either reaped whole or keeps everything
      but its resend stamp. */
  lemma TickKeeps(sv: Server, now: u32)
    requires TableInv(sv.sessions)
    ensures var (sw, out) := Tick(sv, now);
      && TableInv(sw.sessions) && |sw.sessions| == |sv.sessions|
      && (forall j :: 0 <= j < |sv.sessions| ==>
            sw.sessions[j] == if Expired(sv.sessions[j], now) then CLEARED
                              else sv.sessions[j].(lastRefan := sw.sessions[j].lastRefan))
      && sw.rate == sv.rate
  {
    TickFromIs(sv, now, 0);
    var sw := Tick(sv, now).0;
    hide SessionInv, TickFrom, Tick, Expired;
    forall j | 0 <= j < |sv.sessions|
      ensures SessionInv(sw.sessions[j])
      ensures sw.sessions[j] == if Expired(sv.sessions[j], now) then CLEARED
                                else sv.sessions[j].(lastRefan := sw.sessions[j].lastRefan)
    {
      TickSessionKeeps(sv.sessions[j], now);
    }
  }

  lemma TickSessionKeeps(s: Session, now: u32)
    requires SessionInv(s)
    ensures var t := TickSession(s, now).0;
      SessionInv(t) && t == if Expired(s, now) then CLEARED else s.(lastRefan := t.lastRefan)
  {
    hide CellsOk, PeersOk, FanStart, HasRelay;
    if s.phase != Free {
      RefanKeeps(s, now);
    }
  }
}
