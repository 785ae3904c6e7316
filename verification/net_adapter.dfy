// The adapter's two queues: the delay queue behind the impairment shaper, compacted
// in place, and the ring of lobby packets waiting for the client.

module NetAdapter {
  import opened Basics
  import opened LobbyTypes
  import XorShift

  const DELAY_QUEUE: nat := 512
  const LOBBY_RING: nat := 16

  /** One datagram on its way out, or one received from `peer`. */
  datatype Datagram = Datagram(peer: Endpoint, bytes: seq<u8>)

  datatype Delayed = Delayed(due: u32, pkt: Datagram)

  datatype Impairment = Impairment(seed: bv32, delayMs: u16, jitterMs: u16, lossPct: u8, reorderPct: u8)

  /** What the shaper decides for one packet. */
  datatype Fate = Lose | Now | Later(delay: u32, reorder: bool)

  function Draw(rng: bv32): bv32 {
    XorShift.Next(if rng == 0 then 1 else rng)
  }

  function Roll(rng: bv32, n: u32): u32
    requires n > 0
  {
    (rng as int) % n
  }

  /** The draws of one send, in the program's order: loss, jitter if any, reorder. */
  function Decide(imp: Impairment, rng: bv32): (bv32, Fate) {
    var r1 := Draw(rng);
    if Roll(r1, 100) < imp.lossPct then (r1, Lose)
    else
      var r2 := if imp.jitterMs > 0 then Draw(r1) else r1;
      var shift := if imp.jitterMs > 0 then Roll(r2, 2 * imp.jitterMs + 1) - imp.jitterMs else 0;
      var d := Max(imp.delayMs + shift, 0);
      var r3 := Draw(r2);
      (r3, if d == 0 then Now else Later(d, Roll(r3, 100) < imp.reorderPct))
  }

  /** Signed comparison of wrapping clocks: has the time come? */
  predicate Due(now: u32, p: Delayed) {
    (now - p.due) % TWO32 < 0x8000_0000
  }

  /** Across the clock's wrap, due means the true time has come, for times less than
      half the clock's range apart. */
  lemma DueIsTimely(now: nat, due: nat, pkt: Datagram)
    requires now - due < 0x8000_0000 && due - now <= 0x8000_0000
    ensures Due(now % TWO32, Delayed(due % TWO32, pkt)) <==> now >= due
  {
    var d := now - due;
    assert (now % TWO32 - due % TWO32) % TWO32 == d % TWO32;
    assert d < 0 ==> d % TWO32 == d + TWO32;
  }

  function DueOf(now: u32, q: seq<Delayed>): seq<Datagram> {
    if q == [] then [] else DueOne(now, q[0]) + DueOf(now, q[1..])
  }

  function WaitingOf(now: u32, q: seq<Delayed>): seq<Delayed> {
    if q == [] then [] else WaitOne(now, q[0]) + WaitingOf(now, q[1..])
  }

  function Packets(q: seq<Delayed>): seq<Datagram> {
    if q == [] then [] else [q[0].pkt] + Packets(q[1..])
  }

  function DueOne(now: u32, p: Delayed): seq<Datagram> {
    if Due(now, p) then [p.pkt] else []
  }

  function WaitOne(now: u32, p: Delayed): seq<Delayed> {
    if Due(now, p) then [] else [p]
  }

  lemma {:induction false} DueAppend(now: u32, a: seq<Delayed>, p: Delayed)
    ensures DueOf(now, a + [p]) == DueOf(now, a) + DueOne(now, p)
  {
    hide DueOne, WaitOne;
    if a == [] {
      assert a + [p] == [p];
    } else {
      assert (a + [p])[0] == a[0] && (a + [p])[1..] == a[1..] + [p];
      DueAppend(now, a[1..], p);
    }
  }

  lemma {:induction false} WaitingAppend(now: u32, a: seq<Delayed>, p: Delayed)
    ensures WaitingOf(now, a + [p]) == WaitingOf(now, a) + WaitOne(now, p)
  {
    hide DueOne, WaitOne;
    if a == [] {
      assert a + [p] == [p];
    } else {
      assert (a + [p])[0] == a[0] && (a + [p])[1..] == a[1..] + [p];
      WaitingAppend(now, a[1..], p);
    }
  }

  lemma NothingSplit(now: u32)
    ensures DueOf(now, []) == [] && WaitingOf(now, []) == []
  {
  }

  lemma {:induction false} PacketsAppend(a: seq<Delayed>, p: Delayed)
    ensures Packets(a + [p]) == Packets(a) + [p.pkt]
  {
    if a == [] {
      assert a + [p] == [p];
    } else {
      assert (a + [p])[0] == a[0] && (a + [p])[1..] == a[1..] + [p];
      PacketsAppend(a[1..], p);
    }
  }

  /** A flush loses nothing and sends nothing twice. */
  lemma {:induction false} FlushPartitions(now: u32, q: seq<Delayed>)
    ensures multiset(Packets(q)) == multiset(DueOf(now, q)) + multiset(Packets(WaitingOf(now, q)))
  {
    hide Due;
    if q != [] {
      FlushPartitions(now, q[1..]);
      var rest := WaitingOf(now, q[1..]);
      if !Due(now, q[0]) {
        assert ([q[0]] + rest)[1..] == rest;
        assert Packets([q[0]] + rest) == [q[0].pkt] + Packets(rest);
        assert DueOf(now, q) == DueOf(now, q[1..]);
      } else {
        assert WaitingOf(now, q) == rest;
      }
    }
  }

  /** What stays is not yet due. */
  lemma {:induction false} WaitingIsNotDue(now: u32, q: seq<Delayed>)
    ensures |WaitingOf(now, q)| <= |q|
    ensures forall k :: 0 <= k < |WaitingOf(now, q)| ==> !Due(now, WaitingOf(now, q)[k])
  {
    hide Due;
    if q != [] {
      WaitingIsNotDue(now, q[1..]);
    }
  }

  /** Where in the queue the j-th packet kept, or the j-th packet sent, comes from. */
  function Source(now: u32, q: seq<Delayed>, sent: bool, j: nat): (a: nat)
    requires j < if sent then |DueOf(now, q)| else |WaitingOf(now, q)|
    ensures a < |q| && Due(now, q[a]) == sent
    ensures if sent then q[a].pkt == DueOf(now, q)[j] else q[a] == WaitingOf(now, q)[j]
  {
    if Due(now, q[0]) != sent then 1 + Source(now, q[1..], sent, j)
    else if j == 0 then 0
    else 1 + Source(now, q[1..], sent, j - 1)
  }

  /** Both halves keep the queue's order: x before y among the packets sent, or among
      those kept, means x before y in the queue. */
  lemma {:induction false} FlushKeepsOrder(now: u32, q: seq<Delayed>, sent: bool, i: nat, j: nat)
    requires i < j < if sent then |DueOf(now, q)| else |WaitingOf(now, q)|
    ensures Source(now, q, sent, i) < Source(now, q, sent, j)
    decreases |q|
  {
    hide Due;
    if Due(now, q[0]) != sent {
      FlushKeepsOrder(now, q[1..], sent, i, j);
    } else if i > 0 {
      FlushKeepsOrder(now, q[1..], sent, i - 1, j - 1);
    }
  }

  /** Bumping one due time keeps every packet. */
  lemma {:induction false} BumpKeepsPackets(q: seq<Delayed>, k: nat, due: u32)
    requires k < |q|
    ensures Packets(q[k := q[k].(due := due)]) == Packets(q)
  {
    var r := q[k := q[k].(due := due)];
    if k == 0 {
      assert r[1..] == q[1..];
    } else {
      assert r[1..] == q[1..][k - 1 := q[1..][k - 1].(due := due)];
      BumpKeepsPackets(q[1..], k - 1, due);
    }
  }

  /** The queue with a packet put at its end; a reordering one delays the packet before
      it by a millisecond. */
  function Parked(q: seq<Delayed>, due: u32, pkt: Datagram, reorder: bool): seq<Delayed> {
    var n := |q|;
    (if reorder && n > 0 then q[n - 1 := q[n - 1].(due := (q[n - 1].due + 1) % TWO32)] else q) + [Delayed(due, pkt)]
  }

  lemma ParkedPackets(q: seq<Delayed>, due: u32, pkt: Datagram, reorder: bool)
    ensures Packets(Parked(q, due, pkt, reorder)) == Packets(q) + [pkt]
  {
    var n := |q|;
    var bumped := if reorder && n > 0 then q[n - 1 := q[n - 1].(due := (q[n - 1].due + 1) % TWO32)] else q;
    if reorder && n > 0 {
      BumpKeepsPackets(q, n - 1, (q[n - 1].due + 1) % TWO32);
    }
    PacketsAppend(bumped, Delayed(due, pkt));
  }

  /** What a flush makes of a reordering send: the packet overtakes the one before it
      only if it is due and the delayed one is not; where both are due they leave in the
      order they were queued. */
  lemma Overtakes(now: u32, q: seq<Delayed>, due: u32, pkt: Datagram)
    requires q != []
    ensures var before := q[|q| - 1].(due := (q[|q| - 1].due + 1) % TWO32);
      var parked := Parked(q, due, pkt, true);
      && DueOf(now, parked) == DueOf(now, q[..|q| - 1]) + DueOne(now, before) + DueOne(now, Delayed(due, pkt))
      && WaitingOf(now, parked) == WaitingOf(now, q[..|q| - 1]) + WaitOne(now, before) + WaitOne(now, Delayed(due, pkt))
  {
    var before := q[|q| - 1].(due := (q[|q| - 1].due + 1) % TWO32);
    assert Parked(q, due, pkt, true) == (q[..|q| - 1] + [before]) + [Delayed(due, pkt)];
    DueAppend(now, q[..|q| - 1], before);
    WaitingAppend(now, q[..|q| - 1], before);
    DueAppend(now, q[..|q| - 1] + [before], Delayed(due, pkt));
    WaitingAppend(now, q[..|q| - 1] + [before], Delayed(due, pkt));
    hide DueOf, WaitingOf, DueOne, WaitOne;
  }

  /** The last at most sixteen. */
  function LastSixteen<T>(q: seq<T>): (r: seq<T>)
    ensures |r| == if |q| < LOBBY_RING then |q| else LOBBY_RING
  {
    if |q| <= LOBBY_RING then q else q[|q| - LOBBY_RING..]
  }

  /** Where the k-th oldest packet sits. */
  function Place(head: nat, k: nat): (i: nat)
    ensures i < LOBBY_RING
  {
    (head + k) % LOBBY_RING
  }

  lemma PlacesDiffer(head: nat, k: nat, l: nat)
    requires k < l < LOBBY_RING
    ensures Place(head, k) != Place(head, l)
  {
  }

  lemma PlaceNext(head: nat, k: nat)
    ensures Place((head + 1) % LOBBY_RING, k) == Place(head, k + 1) && Place(head, k) < LOBBY_RING
    ensures Place(head, k + LOBBY_RING) == Place(head, k)
  {
    Turns(head + 1 + k, (head + 1) / LOBBY_RING);
    assert (head + 1) % LOBBY_RING == head + 1 - LOBBY_RING * ((head + 1) / LOBBY_RING);
  }

  lemma Turns(a: int, t: int)
    ensures (a - LOBBY_RING * t) % LOBBY_RING == a % LOBBY_RING
  {
  }

  lemma PlaceFirst(head: nat)
    requires head < LOBBY_RING
    ensures Place(head, 0) == head
  {
  }

  /** The packets of a ring from its oldest on. */
  function Window(ring: seq<Datagram>, head: nat, count: nat): (q: seq<Datagram>)
    requires |ring| == LOBBY_RING
    ensures |q| == count
  {
    seq(count, k requires 0 <= k < count => ring[Place(head, k)])
  }

  lemma WindowAt(ring: seq<Datagram>, head: nat, count: nat, k: nat)
    requires |ring| == LOBBY_RING && k < count
    ensures Window(ring, head, count)[k] == ring[Place(head, k)]
  {
  }

  /** A write behind all the others, or over the oldest of a full ring. */
  lemma WindowPush(ring: seq<Datagram>, head: nat, count: nat, pkt: Datagram)
    requires |ring| == LOBBY_RING && head < LOBBY_RING && count <= LOBBY_RING
    ensures var grown := ring[Place(head, count) := pkt];
      var (h, n) := if count < LOBBY_RING then (head, count + 1) else ((head + 1) % LOBBY_RING, count);
      Window(grown, h, n) == LastSixteen(Window(ring, head, count) + [pkt])
  {
    hide Place, Window;
    var grown := ring[Place(head, count) := pkt];
    var (h, n) := if count < LOBBY_RING then (head, count + 1) else ((head + 1) % LOBBY_RING, count);
    forall k | 0 <= k < n ensures Window(grown, h, n)[k] == LastSixteen(Window(ring, head, count) + [pkt])[k] {
      WindowAt(grown, h, n, k);
      if count < LOBBY_RING {
        if k < count {
          PlacesDiffer(head, k, count);
          WindowAt(ring, head, count, k);
        }
      } else {
        PlaceNext(head, k);
        PlaceNext(head, 0);
        if k < n - 1 {
          PlacesDiffer(head, 0, k + 1);
          WindowAt(ring, head, count, k + 1);
        }
      }
    }
  }

  lemma WindowTake(ring: seq<Datagram>, head: nat, count: nat)
    requires |ring| == LOBBY_RING && head < LOBBY_RING && 0 < count <= LOBBY_RING
    ensures Window(ring, head, count) == [ring[head]] + Window(ring, (head + 1) % LOBBY_RING, count - 1)
  {
    hide Place, Window;
    PlaceFirst(head);
    WindowAt(ring, head, count, 0);
    var rest := Window(ring, (head + 1) % LOBBY_RING, count - 1);
    forall k | 0 <= k < count - 1 ensures Window(ring, head, count)[k + 1] == rest[k] {
      PlaceNext(head, k);
      WindowAt(ring, head, count, k + 1);
      WindowAt(ring, (head + 1) % LOBBY_RING, count - 1, k);
    }
  }

  /** sent, lost and queue between them hold every packet accepted. */
  predicate Ledger(accepted: multiset<Datagram>, sentLog: multiset<Datagram>, lost: multiset<Datagram>, q: seq<Delayed>)
  {
    accepted == sentLog + lost + multiset(Packets(q))
  }

  function Plus(m: multiset<Datagram>, p: Datagram): multiset<Datagram> {
    m + multiset{p}
  }

  lemma EmptyLedger()
    ensures Ledger(multiset{}, multiset{}, multiset{}, [])
  {
  }

  lemma LedgerSent(a: multiset<Datagram>, s: multiset<Datagram>, l: multiset<Datagram>, q: seq<Delayed>, p: Datagram)
    requires Ledger(a, s, l, q)
    ensures Ledger(Plus(a, p), Plus(s, p), l, q) && Ledger(Plus(a, p), s, Plus(l, p), q)
  {
  }

  lemma LedgerQueued(a: multiset<Datagram>, s: multiset<Datagram>, l: multiset<Datagram>,
                     q: seq<Delayed>, r: seq<Delayed>, p: Datagram)
    requires Ledger(a, s, l, q) && Packets(r) == Packets(q) + [p]
    ensures Ledger(Plus(a, p), s, l, r)
  {
    assert multiset(Packets(q) + [p]) == multiset(Packets(q)) + multiset{p};
  }

  lemma LedgerFlushed(a: multiset<Datagram>, s: multiset<Datagram>, l: multiset<Datagram>, now: u32, q: seq<Delayed>)
    requires Ledger(a, s, l, q)
    ensures Ledger(a, s + multiset(DueOf(now, q)), l, WaitingOf(now, q))
  {
    FlushPartitions(now, q);
  }

  class Adapter {
    var imp: Impairment
    var impOn: bool
    var impRng: bv32
    const dq: array<Delayed>
    var dqN: nat
    const ring: array<Datagram>
    var head: nat
    var count: nat
    var lossCount: u32
    var overflowCount: u32
    /** Every packet handed to the shaper, and where it went. */
    ghost var accepted: multiset<Datagram>
    ghost var sentLog: multiset<Datagram>
    ghost var lost: multiset<Datagram>
    /** Every lobby packet ever received, in order. */
    ghost var pushed: seq<Datagram>

    ghost predicate Valid()
      reads this, dq, ring
    {
      DelaysOk() && RingOk()
    }

    ghost predicate DelaysOk()
      reads this`dqN, this`accepted, this`sentLog, this`lost, dq
    {
      dq.Length == DELAY_QUEUE && dqN <= DELAY_QUEUE && Ledger(accepted, sentLog, lost, dq[..dqN])
    }

    ghost predicate RingOk()
      reads this`head, this`count, this`pushed, ring
    {
      && ring.Length == LOBBY_RING && head < LOBBY_RING && count <= LOBBY_RING
      && count <= |pushed| && Contents() == pushed[|pushed| - count..]
    }

    ghost function Queue(): seq<Delayed>
      reads this`dqN, dq
      requires dqN <= dq.Length
    {
      dq[..dqN]
    }

    /** The untaken lobby packets, oldest first. */
    ghost function Contents(): (q: seq<Datagram>)
      reads this`head, this`count, ring
      requires ring.Length == LOBBY_RING
      ensures |q| == count
    {
      Window(ring[..], head, count)
    }

    constructor ()
      ensures Valid() && fresh(dq) && fresh(ring) && Queue() == [] && Contents() == [] && !impOn
      ensures accepted == multiset{} && pushed == []
    {
      imp := Impairment(0, 0, 0, 0, 0);
      impOn, impRng, dqN, head, count, lossCount, overflowCount := false, 0, 0, 0, 0, 0, 0;
      dq := new Delayed[DELAY_QUEUE](_ => Delayed(0, Datagram(NO_ENDPOINT, [])));
      ring := new Datagram[LOBBY_RING](_ => Datagram(NO_ENDPOINT, []));
      accepted, sentLog, lost, pushed := multiset{}, multiset{}, multiset{}, [];
      new;
      hide Ledger, Window, Packets, Place;
      EmptyLedger();
      assert dq[..dqN] == [];
      assert Contents() == [] && pushed[|pushed| - count..] == [];
    }

    /** What the shaper's draws make of the next packet; without a shaper it goes out. */
    function Fated(): (r: (bv32, Fate))
      reads this`imp, this`impOn, this`impRng
    {
      if impOn then Decide(imp, impRng) else (impRng, Now)
    }

    /** impaired_send: the packet is lost, sent or queued, exactly one of the three, as
        the draws decide; a full queue sends at once instead of dropping. */
    method Send(now: u32, pkt: Datagram) returns (sent: seq<Datagram>)
      requires Valid()
      modifies this`impRng, this`lossCount, this`overflowCount, this`accepted, this`sentLog, this`lost, this`dqN, dq
      ensures Valid() && accepted == Plus(old(accepted), pkt) && Contents() == old(Contents())
      ensures impRng == old(Fated()).0
      ensures var fate := old(Fated()).1;
        if fate.Lose? then
          && sent == [] && sentLog == old(sentLog) && lost == Plus(old(lost), pkt) && Queue() == old(Queue())
          && lossCount == (old(lossCount) + 1) % TWO32 && overflowCount == old(overflowCount)
        else if fate.Later? && old(dqN) < DELAY_QUEUE then
          && sent == [] && sentLog == old(sentLog) && lost == old(lost)
          && Queue() == Parked(old(Queue()), (now + fate.delay) % TWO32, pkt, fate.reorder)
          && lossCount == old(lossCount) && overflowCount == old(overflowCount)
        else
          && sent == [pkt] && sentLog == Plus(old(sentLog), pkt) && lost == old(lost) && Queue() == old(Queue())
          && lossCount == old(lossCount)
          && overflowCount == if fate.Later? then (old(overflowCount) + 1) % TWO32 else old(overflowCount)
    {
      hide Ledger, Packets, Plus, RingOk, Contents, Decide, Parked;
      var r := Fated();
      impRng := r.0;
      var fate := r.1;
      if fate.Lose? {
        Drop(pkt);
        return [];
      }
      if fate.Later? && dqN < DELAY_QUEUE {
        Hold(now, pkt, fate.delay, fate.reorder);
        return [];
      }
      if fate.Later? {
        overflowCount := (overflowCount + 1) % TWO32;
      }
      Depart(pkt);
      sent := [pkt];
    }

    method Drop(pkt: Datagram)
      requires DelaysOk()
      modifies this`lossCount, this`accepted, this`lost
      ensures DelaysOk() && accepted == Plus(old(accepted), pkt) && lost == Plus(old(lost), pkt)
      ensures lossCount == (old(lossCount) + 1) % TWO32
    {
      hide Ledger, Plus;
      LedgerSent(accepted, sentLog, lost, Queue(), pkt);
      lossCount := (lossCount + 1) % TWO32;
      accepted, lost := Plus(accepted, pkt), Plus(lost, pkt);
    }

    ghost method Depart(pkt: Datagram)
      requires DelaysOk()
      modifies this`accepted, this`sentLog
      ensures DelaysOk() && accepted == Plus(old(accepted), pkt) && sentLog == Plus(old(sentLog), pkt)
    {
      hide Ledger, Plus;
      LedgerSent(accepted, sentLog, lost, Queue(), pkt);
      accepted, sentLog := Plus(accepted, pkt), Plus(sentLog, pkt);
    }

    method Hold(now: u32, pkt: Datagram, d: u32, reorder: bool)
      requires DelaysOk() && dqN < DELAY_QUEUE
      modifies this`accepted, this`dqN, dq
      ensures DelaysOk() && accepted == Plus(old(accepted), pkt)
      ensures Queue() == Parked(old(Queue()), (now + d) % TWO32, pkt, reorder)
    {
      hide Ledger, Plus, Packets, Parked;
      ghost var was := Queue();
      Park(now, pkt, d, reorder);
      ParkedPackets(was, (now + d) % TWO32, pkt, reorder);
      LedgerQueued(accepted, sentLog, lost, was, Queue(), pkt);
      accepted := Plus(accepted, pkt);
    }

    method Park(now: u32, pkt: Datagram, d: u32, reorder: bool)
      requires dq.Length == DELAY_QUEUE && dqN < DELAY_QUEUE
      modifies this`dqN, dq
      ensures dqN == old(dqN) + 1 && Queue() == Parked(old(Queue()), (now + d) % TWO32, pkt, reorder)
    {
      ghost var was := Queue();
      dq[dqN] := Delayed((now + d) % TWO32, pkt);
      dqN := dqN + 1;
      assert Queue() == was + [Delayed((now + d) % TWO32, pkt)];
      if reorder && dqN >= 2 {
        dq[dqN - 2] := dq[dqN - 2].(due := (dq[dqN - 2].due + 1) % TWO32);
      }
    }

    /** flush_due: sends what is due and closes the gaps, both in queue order. */
    method FlushDue(now: u32) returns (sent: seq<Datagram>)
      requires Valid()
      modifies this`dqN, this`sentLog, dq
      ensures Valid() && sent == DueOf(now, old(Queue())) && Queue() == WaitingOf(now, old(Queue()))
      ensures accepted == old(accepted) && lost == old(lost) && sentLog == old(sentLog) + multiset(sent)
      ensures Contents() == old(Contents())
    {
      hide Ledger, Place, Window, DueOf, WaitingOf;
      ghost var q := Queue();
      sent := Compact(now);
      LedgerFlushed(accepted, sentLog, lost, now, q);
      sentLog := sentLog + multiset(sent);
      WaitingIsNotDue(now, q);
    }

    /** The loop of flush_due: reads at i, writes at w. */
    method Compact(now: u32) returns (sent: seq<Datagram>)
      requires dq.Length == DELAY_QUEUE && dqN <= DELAY_QUEUE
      modifies this`dqN, dq
      ensures dqN <= DELAY_QUEUE && sent == DueOf(now, old(Queue())) && Queue() == WaitingOf(now, old(Queue()))
    {
      hide DueOf, WaitingOf, Due;
      ghost var q := Queue();
      sent := [];
      var w := 0;
      var i := 0;
      NothingSplit(now);
      while i < dqN
        invariant 0 <= w <= i <= dqN == old(dqN)
        invariant sent == DueOf(now, q[..i]) && dq[..w] == WaitingOf(now, q[..i])
        invariant forall k :: i <= k < dqN ==> dq[k] == q[k]
      {
        assert q[..i + 1] == q[..i] + [q[i]] && dq[i] == q[i];
        DueAppend(now, q[..i], q[i]);
        WaitingAppend(now, q[..i], q[i]);
        if Due(now, dq[i]) {
          sent := sent + [dq[i].pkt];
        } else {
          if w != i {
            dq[w] := dq[i];
          }
          w := w + 1;
        }
        i := i + 1;
      }
      assert q[..dqN] == q;
      dqN := w;
    }

    /** lobby_ring_push: the ring keeps the newest sixteen. */
    method Push(pkt: Datagram)
      requires Valid()
      modifies this`head, this`count, this`pushed, ring
      ensures Valid() && Contents() == LastSixteen(old(Contents()) + [pkt])
      ensures pushed == old(pushed) + [pkt] && Queue() == old(Queue()) && accepted == old(accepted)
    {
      hide Ledger, Place, Window;
      WindowPush(ring[..], head, count, pkt);
      PlaceNext(head, 0);
      PlaceFirst(head);
      var idx;
      if count < LOBBY_RING {
        idx := Place(head, count);
        count := count + 1;
      } else {
        idx := head;
        head := (head + 1) % LOBBY_RING;
      }
      ring[idx] := pkt;
      pushed := pushed + [pkt];
    }

    /** net_adapter_take_lobby_packet: the oldest packet, if the caller has room for it. */
    method Take(cap: nat) returns (r: Option<Datagram>)
      requires Valid()
      modifies this`head, this`count
      ensures Valid() && pushed == old(pushed) && Queue() == old(Queue()) && accepted == old(accepted)
      ensures r.None? <==> old(Contents()) == [] || cap < |old(Contents())[0].bytes|
      ensures r.None? ==> Contents() == old(Contents())
      ensures r.Some? ==> old(Contents()) == [r.value] + Contents()
    {
      hide Ledger, Place, Window;
      if count > 0 {
        WindowTake(ring[..], head, count);
      }
      if count == 0 || cap < |ring[head].bytes| {
        return None;
      }
      r := Some(ring[head]);
      head := (head + 1) % LOBBY_RING;
      count := count - 1;
    }
  }
}
