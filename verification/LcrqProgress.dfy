/** The lock-free queue does not need the help of other threads: from every state that a run reaches, whatever the others
    were interrupted in, an operation that runs alone returns. */
module LcrqProgress {
  import opened Wrappers
  import C = LcrqConcurrent
  import N = LcrqEmpty

  // ----- What is left to do -----

  /** Counts that go down, the first ones first: rings to go through, stages, tickets to try, a cell or tail that is no
      longer as it was read, spins, and accesses. */
  datatype Measure = Measure(rings: nat, stage: nat, tickets: nat, stale: nat, spins: nat, accesses: nat)

  predicate Less(m: Measure, n: Measure) {
    || m.rings < n.rings
    || (m.rings == n.rings && (
          || m.stage < n.stage
          || (m.stage == n.stage && (
                || m.tickets < n.tickets
                || (m.tickets == n.tickets && (
                      || m.stale < n.stale
                      || (m.stale == n.stale && (m.spins < n.spins || (m.spins == n.spins && m.accesses < n.accesses)))))))))
  }

  // ----- Enqueue -----

  /** How many more tickets of a ring an enqueue may need: from one ring size past the head, the first that fails closes
      the ring. */
  function EnqTickets(r: C.Ring): nat {
    if r.tail.closed then 0
    else if r.tail.index >= r.head + |r.cells| then 1
    else r.head + |r.cells| - r.tail.index + 1
  }

  /** The ring will be closed if this ticket fails. */
  predicate LastTicket(r: C.Ring, t: nat) {
    !r.tail.closed && r.tail.index == t + 1 && t >= r.head + |r.cells|
  }

  function EnqHolding(r: C.Ring, t: nat): nat {
    if LastTicket(r, t) then 1 else EnqTickets(r) + 1
  }

  function EnqMeasure(l: C.Local, r: C.Ring, n: nat): Measure
    requires C.IsEnqueue(l) && l.ring < n
  {
    var last := l.ring + 1 == n;
    match l
    case EnqNext(_, i, _) => if last then Measure(n - i, 0, EnqTickets(r), 0, 0, 12) else Measure(n - i, 0, 0, 0, 0, 1)
    case EnqFaa(_, i, _) => Measure(n - i, 0, EnqTickets(r), 0, 0, 11)
    case EnqLink(_, i, _) => Measure(n - i, 0, 0, 0, 0, 2)
    case EnqIdx(_, i, _, t) => Measure(n - i, 0, EnqHolding(r, t), 0, 0, 10)
    case EnqVal(_, i, _, t, _, _) => Measure(n - i, 0, EnqHolding(r, t), 0, 0, 9)
    case EnqHead(_, i, _, t, _, _) => Measure(n - i, 0, EnqHolding(r, t), 0, 0, 8)
    case EnqCas(_, i, _, t, _, _) => Measure(n - i, 0, EnqHolding(r, t), 0, 0, 7)
    case EnqFull(_, i, _, t) => Measure(n - i, 0, EnqHolding(r, t), 0, 0, 6)
    case EnqClose(_, i, _, t) => Measure(n - i, 0, EnqHolding(r, t), 0, 0, 5)
  }

  lemma EnqMoveLess(l: C.Local, r: C.Ring, n: nat, tid: nat)
    requires C.IsEnqueue(l) && C.WithinRing(l) && |r.cells| > 0 && l.ring < n && (l.ring + 1 < n ==> r.tail.closed)
    ensures var m := C.EnqMove(l, r, l.ring + 1 == n, tid);
      || m.local.Idle?
      || (C.IsEnqueue(m.local) && m.local.ring < n
          && (m.local.ring == l.ring + 1
              || (m.local.ring == l.ring && Less(EnqMeasure(m.local, m.ring, n), EnqMeasure(l, r, n)))))
  {
  }

  // ----- Dequeue -----

  /** How many more tickets of a ring a dequeue may need: with the first one at the tail it goes on to the next ring. */
  function DeqTickets(r: C.Ring): nat {
    if r.tail.index <= r.head + 1 then 1 else r.tail.index - r.head
  }

  function DeqHolding(r: C.Ring, h: nat): nat {
    if r.tail.index <= h + 1 then 1 else DeqTickets(r) + 1
  }

  function SpinsLeft(spins: nat): nat {
    if spins > C.SPIN_LIMIT then 0 else C.SPIN_LIMIT + 1 - spins
  }

  function Stale(same: bool): nat {
    if same then 0 else 1
  }

  predicate AtRing(l: C.Local) {
    !C.IsEnqueue(l) && !C.NoRing(l)
  }

  function TicketsLeft(l: C.Local, r: C.Ring, last: bool): nat
    requires AtRing(l)
  {
    if N.InTest(l) || (N.Returning(l) && last) then 0 else if l.DeqFaa? then DeqTickets(r) else DeqHolding(r, l.h)
  }

  function StaleAt(l: C.Local, r: C.Ring): nat
    requires AtRing(l) && |r.cells| > 0
  {
    if l.DeqFaa? then 2
    else if l.DeqVal? then Stale(C.CellAt(r, l.h).idx == l.idx && C.CellAt(r, l.h).unsafe == l.unsafe)
    else if l.DeqTail? || l.DeqSkip? then Stale(C.CellAt(r, l.h) == C.Cell(None, l.idx, l.unsafe))
    else if l.DeqTake? || l.DeqMark? then Stale(C.CellAt(r, l.h) == C.Cell(Some(l.val), l.idx, l.unsafe))
    else if C.Fixes(l) && !l.FixTail? then Stale(r.tail == l.ft)
    else 0
  }

  function Accesses(l: C.Local): nat
    requires AtRing(l)
  {
    match l
    case QuickTail(_, _) => 5
    case QuickHead(_, _, _, _) => 3
    case QuickNext(_, _) => 1
    case DeqFaa(_) => 13
    case DeqIdx(_, _, _, _) => 12
    case DeqVal(_, _, _, _, _, _) => 11
    case DeqTail(_, _, _, _, _, _) => 10
    case DeqTake(_, _, _, _, _, _, _) => 9
    case DeqMark(_, _, _, _, _, _, _) => 9
    case DeqSkip(_, _, _, _, _, _) => 9
    case DeqShut(_, _) => 8
    case DeqCheck(_, _) => 7
    case FixTail(_, _) => 6
    case FixHead(_, _, _) => 5
    case FixAgain(_, _, _, _) => 4
    case FixCas(_, _, _, _) => 3
    case DeqNext(_, _) => 2
    case DeqCheck2(_, _) => 1
    case DeqSwing(_, _) => 0
  }

  /** For a dequeue at ring r; `stage` is 0 at the queue's head. */
  function RingMeasure(l: C.Local, r: C.Ring, n: nat, rings: nat, stage: nat): Measure
    requires AtRing(l) && |r.cells| > 0
  {
    Measure(rings, if N.InTest(l) then 2 else stage, TicketsLeft(l, r, l.ring + 1 == n), StaleAt(l, r),
            if C.Waiting(l) then SpinsLeft(l.spins) else 0, Accesses(l))
  }

  /** Before it loads the queue's head pointer, with r the ring there. */
  function HeadMeasure(r: C.Ring, rings: nat): Measure {
    Measure(rings, 0, DeqTickets(r), 3, 0, 0)
  }

  /** Does an access at a ring bring a dequeue on?  At the queue's head it may go on from the head pointer again; from
      elsewhere, once. */
  ghost predicate BringsOn(l: C.Local, r: C.Ring, m: C.Move, n: nat, rings: nat, stage: nat)
    requires AtRing(l) && |r.cells| > 0
  {
    if m.local.Idle? then true
    else if m.local.DeqHead? then
      stage > 0 || l.QuickHead? || l.QuickNext? || Less(HeadMeasure(m.ring, rings), RingMeasure(l, r, n, rings, stage))
    else if m.local.QuickLoad? then l.QuickTail?
    else if m.local.QuickLast? then l.QuickHead?
    else
      && AtRing(m.local) && m.local.ring == l.ring && |m.ring.cells| > 0
      && Less(RingMeasure(m.local, m.ring, n, rings, stage), RingMeasure(l, r, n, rings, stage))
  }

  lemma QuickBringsOn(l: C.Local, r: C.Ring, n: nat, tid: nat, rings: nat, stage: nat)
    requires N.InTest(l) && |r.cells| > 0
    ensures BringsOn(l, r, C.DeqMove(l, r, l.ring + 1 == n, tid), n, rings, stage)
  {
  }

  lemma TicketBringsOn(l: C.Local, r: C.Ring, n: nat, tid: nat, rings: nat, stage: nat)
    requires (l.DeqFaa? || l.DeqIdx?) && |r.cells| > 0
    ensures BringsOn(l, r, C.DeqMove(l, r, l.ring + 1 == n, tid), n, rings, stage)
  {
  }

  lemma DecidesOn(l: C.Local, r: C.Ring, n: nat, rings: nat, stage: nat)
    requires l.DeqVal? && |r.cells| > 0 && C.CellAt(r, l.h).val.None?
    ensures var l' := C.DecideEmpty(l, l.seen);
      AtRing(l') && l'.ring == l.ring && Less(RingMeasure(l', r, n, rings, stage), RingMeasure(l, r, n, rings, stage))
  {
  }

  lemma EmptyBringsOn(l: C.Local, r: C.Ring, n: nat, tid: nat, rings: nat, stage: nat)
    requires l.DeqVal? && |r.cells| > 0 && l.idx <= l.h && C.CellAt(r, l.h).val.None?
    ensures BringsOn(l, r, C.DeqMove(l, r, l.ring + 1 == n, tid), n, rings, stage)
  {
    DecidesOn(l, r, n, rings, stage);
    if l.spins % C.TAIL_REFRESH != 0 {
      assert C.DeqMove(l, r, l.ring + 1 == n, tid).local == C.DecideEmpty(l, l.seen);
    }
  }

  lemma ValueBringsOn(l: C.Local, r: C.Ring, n: nat, tid: nat, rings: nat, stage: nat)
    requires l.DeqVal? && |r.cells| > 0
    ensures BringsOn(l, r, C.DeqMove(l, r, l.ring + 1 == n, tid), n, rings, stage)
  {
    if l.idx <= l.h && C.CellAt(r, l.h).val.None? { EmptyBringsOn(l, r, n, tid, rings, stage); }
  }

  lemma TailBringsOn(l: C.Local, r: C.Ring, n: nat, tid: nat, rings: nat, stage: nat)
    requires l.DeqTail? && |r.cells| > 0
    ensures BringsOn(l, r, C.DeqMove(l, r, l.ring + 1 == n, tid), n, rings, stage)
  {
  }

  lemma TakeBringsOn(l: C.Local, r: C.Ring, n: nat, tid: nat, rings: nat, stage: nat)
    requires l.DeqTake? && |r.cells| > 0
    ensures BringsOn(l, r, C.DeqMove(l, r, l.ring + 1 == n, tid), n, rings, stage)
  {
  }

  lemma MarkBringsOn(l: C.Local, r: C.Ring, n: nat, tid: nat, rings: nat, stage: nat)
    requires l.DeqMark? && |r.cells| > 0
    ensures BringsOn(l, r, C.DeqMove(l, r, l.ring + 1 == n, tid), n, rings, stage)
  {
  }

  lemma SkipBringsOn(l: C.Local, r: C.Ring, n: nat, tid: nat, rings: nat, stage: nat)
    requires l.DeqSkip? && |r.cells| > 0
    ensures BringsOn(l, r, C.DeqMove(l, r, l.ring + 1 == n, tid), n, rings, stage)
  {
  }

  lemma CheckBringsOn(l: C.Local, r: C.Ring, n: nat, tid: nat, rings: nat, stage: nat)
    requires (l.DeqShut? || l.DeqCheck?) && |r.cells| > 0
    ensures BringsOn(l, r, C.DeqMove(l, r, l.ring + 1 == n, tid), n, rings, stage)
  {
  }

  lemma NextBringsOn(l: C.Local, r: C.Ring, n: nat, tid: nat, rings: nat, stage: nat)
    requires (l.DeqNext? || l.DeqCheck2?) && |r.cells| > 0
    ensures BringsOn(l, r, C.DeqMove(l, r, l.ring + 1 == n, tid), n, rings, stage)
  {
  }

  lemma AgainBringsOn(l: C.Local, r: C.Ring, n: nat, tid: nat, rings: nat, stage: nat)
    requires l.FixAgain? && |r.cells| > 0
    ensures BringsOn(l, r, C.DeqMove(l, r, l.ring + 1 == n, tid), n, rings, stage)
  {
  }

  lemma FixBringsOn(l: C.Local, r: C.Ring, n: nat, tid: nat, rings: nat, stage: nat)
    requires (l.FixTail? || l.FixHead?) && |r.cells| > 0
    ensures BringsOn(l, r, C.DeqMove(l, r, l.ring + 1 == n, tid), n, rings, stage)
  {
  }

  lemma RaiseBringsOn(l: C.Local, r: C.Ring, n: nat, tid: nat, rings: nat, stage: nat)
    requires l.FixCas? && |r.cells| > 0
    requires (l.ring + 1 != n ==> r.tail.closed) && (l.FixCas? ==> !l.ft.closed)
    ensures BringsOn(l, r, C.DeqMove(l, r, l.ring + 1 == n, tid), n, rings, stage)
  {
  }

  lemma DeqMoveBringsOn(l: C.Local, r: C.Ring, n: nat, tid: nat, rings: nat, stage: nat)
    requires AtRing(l) && C.WithinRing(l) && |r.cells| > 0
    requires (l.ring + 1 != n ==> r.tail.closed) && (l.FixCas? ==> !l.ft.closed)
    ensures BringsOn(l, r, C.DeqMove(l, r, l.ring + 1 == n, tid), n, rings, stage)
  {
    if N.InTest(l) { QuickBringsOn(l, r, n, tid, rings, stage); }
    else if l.DeqFaa? || l.DeqIdx? { TicketBringsOn(l, r, n, tid, rings, stage); }
    else if l.DeqVal? { ValueBringsOn(l, r, n, tid, rings, stage); }
    else if l.DeqTail? { TailBringsOn(l, r, n, tid, rings, stage); }
    else if l.DeqTake? { TakeBringsOn(l, r, n, tid, rings, stage); }
    else if l.DeqMark? { MarkBringsOn(l, r, n, tid, rings, stage); }
    else if l.DeqSkip? { SkipBringsOn(l, r, n, tid, rings, stage); }
    else if l.FixTail? || l.FixHead? { FixBringsOn(l, r, n, tid, rings, stage); }
    else if l.FixAgain? { AgainBringsOn(l, r, n, tid, rings, stage); }
    else if l.FixCas? { RaiseBringsOn(l, r, n, tid, rings, stage); }
    else if l.DeqShut? || l.DeqCheck? { CheckBringsOn(l, r, n, tid, rings, stage); }
    else { NextBringsOn(l, r, n, tid, rings, stage); }
  }

  // ----- Accesses of one thread -----

  function Place(ring: nat, qhead: nat): nat {
    if ring == qhead then 0 else 1
  }

  predicate Fits(l: C.Local, rings: seq<C.Ring>, qhead: nat) {
    qhead < |rings| && (!C.NoRing(l) ==> l.ring < |rings| && |rings[l.ring].cells| > 0)
  }

  /** What a thread has left to do. */
  function MeasureAt(l: C.Local, rings: seq<C.Ring>, qhead: nat): Measure
    requires Fits(l, rings, qhead)
  {
    var ahead := |rings| - qhead;
    if l.Idle? then Measure(0, 0, 0, 0, 0, 0)
    else if l.DeqQuick? then Measure(ahead, 2, 0, 0, 0, 6)
    else if l.QuickLoad? then Measure(ahead, 2, 0, 0, 0, 4)
    else if l.QuickLast? then Measure(ahead, 2, 0, 0, 0, 2)
    else if l.DeqHead? then HeadMeasure(rings[qhead], ahead)
    else if C.IsEnqueue(l) then EnqMeasure(l, rings[l.ring], |rings|)
    else RingMeasure(l, rings[l.ring], |rings|, ahead, Place(l.ring, qhead))
  }

  function StateMeasure(s: C.State, size: nat, tid: nat): Measure
    requires C.WellFormed(s, size)
  {
    assert C.InRange(C.LocalOf(s, tid), |s.rings|);
    MeasureAt(C.LocalOf(s, tid), s.rings, s.qhead)
  }

  ghost predicate NoMore(l: C.Local, rings: seq<C.Ring>, qhead: nat, m: C.Move)
    requires Fits(l, rings, qhead) && !C.NoRing(l)
  {
    && (m.local.Idle? || (
          && Fits(m.local, rings[l.ring := m.ring], qhead)
          && Less(MeasureAt(m.local, rings[l.ring := m.ring], qhead), MeasureAt(l, rings, qhead))))
  }

  lemma EnqApplyLess(l: C.Local, rings: seq<C.Ring>, qhead: nat, tid: nat)
    requires Fits(l, rings, qhead) && C.IsEnqueue(l) && C.WithinRing(l)
    requires l.ring + 1 < |rings| ==> rings[l.ring].tail.closed
    requires forall i :: 0 <= i < |rings| ==> |rings[i].cells| > 0
    ensures NoMore(l, rings, qhead, C.EnqMove(l, rings[l.ring], l.ring + 1 == |rings|, tid))
  {
    EnqMoveLess(l, rings[l.ring], |rings|, tid);
    EnqCellsKept(l, rings[l.ring], l.ring + 1 == |rings|, tid);
  }

  lemma EnqCellsKept(l: C.Local, r: C.Ring, last: bool, tid: nat)
    requires C.IsEnqueue(l) && C.WithinRing(l) && |r.cells| > 0
    ensures |C.EnqMove(l, r, last, tid).ring.cells| == |r.cells|
  {
  }

  /** A dequeue that stays at its ring. */
  lemma StaysOn(l: C.Local, rings: seq<C.Ring>, qhead: nat, m: C.Move)
    requires Fits(l, rings, qhead) && AtRing(l) && AtRing(m.local) && m.local.ring == l.ring && |m.ring.cells| > 0
    requires var (n, ahead, stage) := (|rings|, |rings| - qhead, Place(l.ring, qhead));
      Less(RingMeasure(m.local, m.ring, n, ahead, stage), RingMeasure(l, rings[l.ring], n, ahead, stage))
    ensures NoMore(l, rings, qhead, m)
  {
    assert rings[l.ring := m.ring][l.ring] == m.ring;
  }

  /** A dequeue that goes back to the queue's head pointer. */
  lemma GoesBack(l: C.Local, rings: seq<C.Ring>, qhead: nat, m: C.Move)
    requires Fits(l, rings, qhead) && AtRing(l) && m.local.DeqHead?
    requires BringsOn(l, rings[l.ring], m, |rings|, |rings| - qhead, Place(l.ring, qhead))
    ensures NoMore(l, rings, qhead, m)
  {
    StageOf(l, rings[l.ring], |rings|, |rings| - qhead, Place(l.ring, qhead));
  }

  lemma StageOf(l: C.Local, r: C.Ring, n: nat, rings: nat, stage: nat)
    requires AtRing(l) && |r.cells| > 0
    ensures var m := RingMeasure(l, r, n, rings, stage); m.rings == rings && m.stage == if N.InTest(l) then 2 else stage
  {
  }

  lemma BroughtOn(l: C.Local, rings: seq<C.Ring>, qhead: nat, m: C.Move)
    requires Fits(l, rings, qhead) && AtRing(l)
    requires BringsOn(l, rings[l.ring], m, |rings|, |rings| - qhead, Place(l.ring, qhead))
    ensures NoMore(l, rings, qhead, m)
  {
    if m.local.DeqHead? { GoesBack(l, rings, qhead, m); }
    else if AtRing(m.local) { StaysOn(l, rings, qhead, m); }
  }

  lemma DeqApplyLess(l: C.Local, rings: seq<C.Ring>, qhead: nat, tid: nat)
    requires Fits(l, rings, qhead) && AtRing(l) && C.WithinRing(l)
    requires (l.ring + 1 < |rings| ==> rings[l.ring].tail.closed) && (l.FixCas? ==> !l.ft.closed)
    ensures NoMore(l, rings, qhead, C.DeqMove(l, rings[l.ring], l.ring + 1 == |rings|, tid))
  {
    var m := C.DeqMove(l, rings[l.ring], l.ring + 1 == |rings|, tid);
    assert BringsOn(l, rings[l.ring], m, |rings|, |rings| - qhead, Place(l.ring, qhead)) by {
      DeqMoveBringsOn(l, rings[l.ring], |rings|, tid, |rings| - qhead, Place(l.ring, qhead));
    }
    BroughtOn(l, rings, qhead, m);
  }

  /** What the measure needs of the invariant. */
  ghost predicate Passable(l: C.Local, rings: seq<C.Ring>) {
    && !C.NoRing(l) && l.ring < |rings| && |rings[l.ring].cells| > 0
    && (l.ring + 1 < |rings| ==> rings[l.ring].tail.closed)
    && (l.FixCas? ==> !l.ft.closed) && (l.DeqSwing? ==> l.ring + 1 < |rings|)
  }

  lemma InvPassable(s: C.State, size: nat, tid: nat)
    requires C.Inv(s, size) && !C.NoRing(C.LocalOf(s, tid))
    ensures Passable(C.LocalOf(s, tid), s.rings)
  {
    assert C.ThreadOk(tid, C.LocalOf(s, tid), s.rings);
  }

  lemma WithinLess(s: C.State, size: nat, tid: nat, input: C.Input)
    requires C.WellFormed(s, size) && C.WithinRing(C.LocalOf(s, tid)) && Passable(C.LocalOf(s, tid), s.rings)
    requires C.WellFormed(C.Step(s, size, tid, input), size)
    ensures var t := C.Step(s, size, tid, input);
      C.LocalOf(t, tid).Idle? || Less(StateMeasure(t, size, tid), StateMeasure(s, size, tid))
  {
    var l := C.LocalOf(s, tid);
    C.StepWithinRing(s, size, tid, input);
    if C.IsEnqueue(l) { EnqApplyLess(l, s.rings, s.qhead, tid); } else { DeqApplyLess(l, s.rings, s.qhead, tid); }
  }

  lemma OutsideLess(s: C.State, size: nat, tid: nat, input: C.Input)
    requires C.WellFormed(s, size) && !C.WithinRing(C.LocalOf(s, tid)) && !C.LocalOf(s, tid).Idle?
    requires C.NoRing(C.LocalOf(s, tid)) || Passable(C.LocalOf(s, tid), s.rings)
    requires C.WellFormed(C.Step(s, size, tid, input), size)
    ensures var t := C.Step(s, size, tid, input);
      C.LocalOf(t, tid).Idle? || Less(StateMeasure(t, size, tid), StateMeasure(s, size, tid))
  {
  }

  lemma StepLess(s: C.State, size: nat, tid: nat, input: C.Input)
    requires C.Inv(s, size) && C.WellFormed(s, size) && !C.LocalOf(s, tid).Idle?
    requires C.WellFormed(C.Step(s, size, tid, input), size)
    ensures var t := C.Step(s, size, tid, input);
      C.LocalOf(t, tid).Idle? || Less(StateMeasure(t, size, tid), StateMeasure(s, size, tid))
  {
    if !C.NoRing(C.LocalOf(s, tid)) { InvPassable(s, size, tid); }
    if C.WithinRing(C.LocalOf(s, tid)) { WithinLess(s, size, tid, input); } else { OutsideLess(s, size, tid, input); }
  }

  // ----- One thread alone -----

  /** The state after n accesses of one thread and of no other; if it is idle it calls the operation that `input` names. */
  ghost function Alone(s: C.State, size: nat, tid: nat, input: C.Input, n: nat): C.State {
    if n == 0 then s
    else
      var u := Alone(s, size, tid, input, n - 1);
      if C.WellFormed(u, size) then C.Step(u, size, tid, input) else u
  }

  /** The thread is idle after n accesses and was not in between: it has returned from the operation it was in, or, if it
      was in none, from the one it called. */
  ghost predicate ReturnsAfter(s: C.State, size: nat, tid: nat, input: C.Input, n: nat) {
    && n > 0 && IdleAfter(s, size, tid, input, n)
    && forall k :: 0 < k < n ==> !IdleAfter(s, size, tid, input, k)
  }

  ghost predicate IdleAfter(s: C.State, size: nat, tid: nat, input: C.Input, k: nat) {
    C.LocalOf(Alone(s, size, tid, input, k), tid).Idle?
  }

  lemma AfterAccess(s: C.State, t: C.State, size: nat, tid: nat, input: C.Input)
    requires C.Inv(s, size) && C.WellFormed(s, size) && t == C.Step(s, size, tid, input)
    ensures C.Inv(t, size) && C.WellFormed(t, size)
  {
    C.StepKeepsInv(s, size, tid, input);
    C.InvWellFormed(t, size);
  }

  lemma LastAccess(s: C.State, u: C.State, size: nat, tid: nat, input: C.Input, n: nat)
    requires n > 0 && u == Alone(s, size, tid, input, n - 1) && C.WellFormed(u, size)
    ensures Alone(s, size, tid, input, n) == C.Step(u, size, tid, input)
  {
  }

  lemma {:induction false} AloneKeeps(s: C.State, t: C.State, size: nat, tid: nat, input: C.Input, n: nat)
    requires C.Inv(s, size) && t == Alone(s, size, tid, input, n)
    ensures C.Inv(t, size) && C.WellFormed(t, size)
    decreases n
  {
    if n == 0 {
      C.InvWellFormed(s, size);
    } else {
      var u := Alone(s, size, tid, input, n - 1);
      AloneKeeps(s, u, size, tid, input, n - 1);
      LastAccess(s, u, size, tid, input, n);
      AfterAccess(u, t, size, tid, input);
    }
  }

  lemma AloneInv(s: C.State, size: nat, tid: nat, input: C.Input, n: nat)
    requires C.Inv(s, size)
    ensures var t := Alone(s, size, tid, input, n); C.Inv(t, size) && C.WellFormed(t, size)
  {
    AloneKeeps(s, Alone(s, size, tid, input, n), size, tid, input, n);
  }

  lemma AloneWellFormed(s: C.State, size: nat, tid: nat, input: C.Input, n: nat)
    requires C.Inv(s, size)
    ensures C.WellFormed(Alone(s, size, tid, input, n), size)
  {
    AloneInv(s, size, tid, input, n);
  }

  /** What the thread has left to do; nothing if it is not in an operation. */
  ghost function Left(s: C.State, size: nat, tid: nat): Measure {
    if C.WellFormed(s, size) then StateMeasure(s, size, tid) else Measure(0, 0, 0, 0, 0, 0)
  }

  lemma AccessLess(t: C.State, u: C.State, size: nat, tid: nat, input: C.Input)
    requires C.Inv(t, size) && C.WellFormed(t, size) && C.WellFormed(u, size) && u == C.Step(t, size, tid, input)
    ensures C.LocalOf(t, tid).Idle? || C.LocalOf(u, tid).Idle? || Less(Left(u, size, tid), Left(t, size, tid))
  {
    if !C.LocalOf(t, tid).Idle? { StepLess(t, size, tid, input); }
  }

  predicate Descends(idle: nat -> bool, left: nat -> Measure, k: nat) {
    idle(k) || idle(k + 1) || Less(left(k + 1), left(k))
  }

  /** What goes down until a thread is idle does not go down for ever. */
  lemma Descent(idle: nat -> bool, left: nat -> Measure, k: nat, m: Measure) returns (n: nat)
    requires forall j: nat :: Descends(idle, left, j)
    requires idle(k) || m == left(k)
    ensures k <= n && idle(n) && forall j :: k <= j < n ==> !idle(j)
    decreases m.rings, m.stage, m.tickets, m.stale, m.spins, m.accesses
  {
    if idle(k) {
      n := k;
    } else {
      assert Descends(idle, left, k);
      if idle(k + 1) { n := k + 1; } else { n := Descent(idle, left, k + 1, left(k + 1)); }
    }
  }

  lemma AloneLess(s: C.State, size: nat, tid: nat, input: C.Input, k: nat)
    requires C.Inv(s, size)
    ensures var (t, u) := (Alone(s, size, tid, input, k), Alone(s, size, tid, input, k + 1));
      C.LocalOf(t, tid).Idle? || C.LocalOf(u, tid).Idle? || Less(Left(u, size, tid), Left(t, size, tid))
  {
    AloneInv(s, size, tid, input, k);
    AloneInv(s, size, tid, input, k + 1);
    AccessLess(Alone(s, size, tid, input, k), Alone(s, size, tid, input, k + 1), size, tid, input);
  }

  lemma AloneDescends(s: C.State, size: nat, tid: nat, input: C.Input) returns (idle: nat -> bool, left: nat -> Measure)
    requires C.Inv(s, size)
    ensures forall j: nat :: Descends(idle, left, j)
    ensures forall j: nat :: idle(j) == IdleAfter(s, size, tid, input, j)
  {
    idle := (j: nat) => C.LocalOf(Alone(s, size, tid, input, j), tid).Idle?;
    left := (j: nat) => Left(Alone(s, size, tid, input, j), size, tid);
    forall j: nat ensures Descends(idle, left, j) { AloneLess(s, size, tid, input, j); }
  }

  lemma ReturnsFrom(s: C.State, size: nat, tid: nat, input: C.Input) returns (n: nat)
    requires C.Inv(s, size)
    ensures ReturnsAfter(s, size, tid, input, n)
  {
    var idle, left := AloneDescends(s, size, tid, input);
    n := Descent(idle, left, 1, left(1));
    forall k | 0 < k < n ensures !IdleAfter(s, size, tid, input, k) { assert !idle(k); }
  }

  /** From every state that a run reaches, a thread that runs alone returns from the operation it is in, or, if it is in
      none, from one that it calls. */
  lemma AloneReturns(size: nat, schedule: C.Schedule, tid: nat, input: C.Input)
    requires size > 0
    ensures exists n :: ReturnsAfter(C.Reached(size, schedule), size, tid, input, n)
  {
    C.ReachedInv(size, schedule);
    var n := ReturnsFrom(C.Reached(size, schedule), size, tid, input);
  }
}
