/** The order of the lock-free queue across operations: what was enqueued before an enqueue began is ahead of it. */
module LcrqOrder {
  import opened Wrappers
  import C = LcrqConcurrent

  /** The queue together with a record of calls: `calls` is, for the operation a thread is in, how many enqueues had
      completed when it began, and `began` is the same for every completed enqueue. */
  datatype Traced = Traced(s: C.State, calls: map<nat, nat>, began: seq<nat>)

  function CallOf(h: Traced, tid: nat): nat {
    if tid in h.calls then h.calls[tid] else 0
  }

  function TracedStep(h: Traced, size: nat, tid: nat, input: C.Input): Traced
    requires C.WellFormed(h.s, size)
  {
    var t := C.Step(h.s, size, tid, input);
    Traced(t,
           if C.LocalOf(h.s, tid).Idle? then h.calls[tid := |h.s.puts|] else h.calls,
           if |t.puts| > |h.s.puts| then h.began + [CallOf(h, tid)] else h.began)
  }

  ghost function TracedRun(h: Traced, size: nat, schedule: C.Schedule): Traced
    decreases |schedule|
  {
    if schedule == [] || !C.WellFormed(h.s, size) then h
    else TracedRun(TracedStep(h, size, schedule[0].0, schedule[0].1), size, schedule[1..])
  }

  /** The state after a schedule, with the record of its calls. */
  ghost function TracedReached(size: nat, schedule: C.Schedule): Traced
    requires size > 0
  {
    TracedRun(Traced(C.Init(size), map[], []), size, schedule)
  }

  /** Dequeuers come to one place before they come to the other. */
  predicate Before(a: C.Event, ring: nat, ticket: nat) {
    a.ring < ring || (a.ring == ring && a.ticket < ticket)
  }

  // ----- The invariant -----

  ghost predicate AllBefore(puts: seq<C.Event>, k: nat, ring: nat, ticket: nat) {
    k <= |puts| && forall a :: 0 <= a < k ==> Before(puts[a], ring, ticket)
  }

  predicate HasTicket(l: C.Local) {
    l.EnqIdx? || l.EnqVal? || l.EnqHead? || l.EnqCas?
  }

  ghost predicate EnqueueOk(l: C.Local, call: nat, puts: seq<C.Event>) {
    && (C.IsEnqueue(l) ==> call <= |puts|)
    && (HasTicket(l) ==> AllBefore(puts, call, l.ring, l.t))
  }

  /** What completed before a call began is ahead of the ticket the call has, or had. */
  ghost predicate InOrder(h: Traced) {
    && |h.began| == |h.s.puts|
    && (forall k :: 0 <= k < |h.began| ==>
          h.began[k] <= k && AllBefore(h.s.puts, h.began[k], h.s.puts[k].ring, h.s.puts[k].ticket))
    && (forall tid: nat :: EnqueueOk(C.LocalOf(h.s, tid), CallOf(h, tid), h.s.puts))
  }

  /** Dequeuers have been in no ring behind the queue's head. */
  ghost predicate HeadsOk(s: C.State) {
    && (forall i :: 0 <= i < |s.rings| && s.rings[i].head > 0 ==> i <= s.qhead)
    && (forall tid: nat :: C.LocalOf(s, tid).DeqFaa? ==> C.LocalOf(s, tid).ring <= s.qhead)
  }

  ghost predicate OrderInv(h: Traced, size: nat) {
    C.Inv(h.s, size) && InOrder(h) && HeadsOk(h.s)
  }

  // ----- Tickets are issued behind everything stored -----

  /** A ticket of an open ring is behind every completed enqueue. */
  lemma TicketBehind(s: C.State, size: nat, i: nat)
    requires C.Inv(s, size) && i < |s.rings| && !s.rings[i].tail.closed
    ensures AllBefore(s.puts, |s.puts|, i, s.rings[i].tail.index)
  {
    forall a | 0 <= a < |s.puts| ensures Before(s.puts[a], i, s.rings[i].tail.index) {
      assert C.WasStored(s.rings, s.puts[a]);
      assert C.RingInv(s.rings[s.puts[a].ring]);
    }
  }

  /** So is ticket 0 of a new ring. */
  lemma NewRingBehind(s: C.State, size: nat)
    requires C.Inv(s, size)
    ensures AllBefore(s.puts, |s.puts|, |s.rings|, 0)
  {
    forall a | 0 <= a < |s.puts| ensures Before(s.puts[a], |s.rings|, 0) { assert C.WasStored(s.rings, s.puts[a]); }
  }

  // ----- Steps keep the order -----

  /** An access completes at most one enqueue: that of the thread's ticket, or of ticket 0 of a new ring, the n-th. */
  predicate Completes(l: C.Local, l': C.Local, puts: seq<C.Event>, puts': seq<C.Event>, n: nat) {
    puts' == puts
    || (&& |puts'| == |puts| + 1 && puts'[..|puts|] == puts && !C.IsEnqueue(l')
        && var e := puts'[|puts|];
           (HasTicket(l) && e.ring == l.ring && e.ticket == l.t) || (C.IsEnqueue(l) && e.ring == n && e.ticket == 0))
  }

  /** An access leaves a thread outside enqueue, or where it was in one, or with a ticket just issued. */
  predicate MovesOn(l: C.Local, l': C.Local, rings: seq<C.Ring>, called: bool) {
    && (C.IsEnqueue(l') ==> C.IsEnqueue(l) || (called && !HasTicket(l')))
    && (HasTicket(l') ==>
          || (HasTicket(l) && l'.ring == l.ring && l'.t == l.t)
          || (l'.ring < |rings| && !rings[l'.ring].tail.closed && l'.t == rings[l'.ring].tail.index))
  }

  lemma EnqMoveShape(l: C.Local, r: C.Ring, last: bool, tid: nat, rings: seq<C.Ring>, puts: seq<C.Event>)
    requires C.IsEnqueue(l) && C.WithinRing(l) && |r.cells| > 0 && l.ring < |rings| && rings[l.ring] == r
    ensures var m := C.EnqMove(l, r, last, tid);
      Completes(l, m.local, puts, puts + m.puts, |rings|) && MovesOn(l, m.local, rings, false)
  {
    var m := C.EnqMove(l, r, last, tid);
    if m.puts == [] { assert puts + m.puts == puts; }
  }

  lemma DeqMoveShape(l: C.Local, r: C.Ring, last: bool, tid: nat, rings: seq<C.Ring>, puts: seq<C.Event>)
    requires !C.IsEnqueue(l) && C.WithinRing(l) && |r.cells| > 0
    ensures var m := C.DeqMove(l, r, last, tid);
      Completes(l, m.local, puts, puts + m.puts, |rings|) && MovesOn(l, m.local, rings, false)
  {
    var m := C.DeqMove(l, r, last, tid);
    assert m.puts == [] && !C.IsEnqueue(m.local);
    assert puts + m.puts == puts;
  }

  /** What an access does to the log and to its thread. */
  lemma StepShape(s: C.State, size: nat, tid: nat, input: C.Input)
    requires C.WellFormed(s, size)
    ensures var t, l := C.Step(s, size, tid, input), C.LocalOf(s, tid);
      && Completes(l, C.LocalOf(t, tid), s.puts, t.puts, |s.rings|)
      && MovesOn(l, C.LocalOf(t, tid), s.rings, l.Idle? && input.CallEnqueue?)
  {
    var l := C.LocalOf(s, tid);
    if C.WithinRing(l) {
      assert tid in s.threads && C.InRange(l, |s.rings|);
      C.StepWithinRing(s, size, tid, input);
      if C.IsEnqueue(l) { EnqMoveShape(l, s.rings[l.ring], l.ring + 1 == |s.rings|, tid, s.rings, s.puts); }
      else { DeqMoveShape(l, s.rings[l.ring], l.ring + 1 == |s.rings|, tid, s.rings, s.puts); }
    }
  }

  lemma OtherThreads(s: C.State, size: nat, tid: nat, input: C.Input, u: nat)
    requires C.WellFormed(s, size) && u != tid
    ensures C.LocalOf(C.Step(s, size, tid, input), u) == C.LocalOf(s, u)
  {
    if C.WithinRing(C.LocalOf(s, tid)) { C.StepWithinRing(s, size, tid, input); }
  }

  lemma StillBefore(puts: seq<C.Event>, puts': seq<C.Event>, k: nat, ring: nat, ticket: nat)
    requires AllBefore(puts, k, ring, ticket) && puts <= puts'
    ensures AllBefore(puts', k, ring, ticket)
  {
  }

  lemma OwnThreadInOrder(h: Traced, size: nat, tid: nat, input: C.Input)
    requires C.WellFormed(h.s, size) && C.Inv(h.s, size) && InOrder(h)
    ensures var h' := TracedStep(h, size, tid, input);
      EnqueueOk(C.LocalOf(h'.s, tid), CallOf(h', tid), h'.s.puts)
  {
    var h' := TracedStep(h, size, tid, input);
    var l, l' := C.LocalOf(h.s, tid), C.LocalOf(h'.s, tid);
    StepShape(h.s, size, tid, input);
    assert EnqueueOk(l, CallOf(h, tid), h.s.puts);
    assert h.s.puts <= h'.s.puts;
    if HasTicket(l') {
      if HasTicket(l) && l'.ring == l.ring && l'.t == l.t {
        StillBefore(h.s.puts, h'.s.puts, CallOf(h, tid), l.ring, l.t);
      } else {
        TicketBehind(h.s, size, l'.ring);
        StillBefore(h.s.puts, h'.s.puts, CallOf(h, tid), l'.ring, l'.t);
      }
    }
  }

  lemma NewPutInOrder(h: Traced, size: nat, tid: nat, input: C.Input)
    requires C.WellFormed(h.s, size) && C.Inv(h.s, size) && InOrder(h)
    requires |C.Step(h.s, size, tid, input).puts| > |h.s.puts|
    ensures var puts', n := C.Step(h.s, size, tid, input).puts, |h.s.puts|;
      |puts'| == n + 1 && CallOf(h, tid) <= n && AllBefore(puts', CallOf(h, tid), puts'[n].ring, puts'[n].ticket)
  {
    var puts', l := C.Step(h.s, size, tid, input).puts, C.LocalOf(h.s, tid);
    StepShape(h.s, size, tid, input);
    assert EnqueueOk(l, CallOf(h, tid), h.s.puts);
    var e := puts'[|h.s.puts|];
    if !(HasTicket(l) && e.ring == l.ring && e.ticket == l.t) { NewRingBehind(h.s, size); }
    StillBefore(h.s.puts, puts', CallOf(h, tid), e.ring, e.ticket);
  }

  lemma PutsInOrder(h: Traced, size: nat, tid: nat, input: C.Input, k: nat)
    requires C.WellFormed(h.s, size) && C.Inv(h.s, size) && InOrder(h)
    requires var h' := TracedStep(h, size, tid, input); k < |h'.began| == |h'.s.puts|
    ensures var h' := TracedStep(h, size, tid, input);
      h'.began[k] <= k && AllBefore(h'.s.puts, h'.began[k], h'.s.puts[k].ring, h'.s.puts[k].ticket)
  {
    var h' := TracedStep(h, size, tid, input);
    StepShape(h.s, size, tid, input);
    if k < |h.began| {
      assert AllBefore(h.s.puts, h.began[k], h.s.puts[k].ring, h.s.puts[k].ticket);
      assert h.s.puts <= h'.s.puts;
      StillBefore(h.s.puts, h'.s.puts, h.began[k], h.s.puts[k].ring, h.s.puts[k].ticket);
    } else {
      NewPutInOrder(h, size, tid, input);
    }
  }

  lemma ThreadInOrder(h: Traced, size: nat, tid: nat, input: C.Input, u: nat)
    requires C.WellFormed(h.s, size) && C.Inv(h.s, size) && InOrder(h)
    ensures var h' := TracedStep(h, size, tid, input); EnqueueOk(C.LocalOf(h'.s, u), CallOf(h', u), h'.s.puts)
  {
    if u == tid {
      OwnThreadInOrder(h, size, tid, input);
    } else {
      StepShape(h.s, size, tid, input);
      OtherThreads(h.s, size, tid, input, u);
      OtherStillOk(C.LocalOf(h.s, u), CallOf(h, u), h.s.puts, TracedStep(h, size, tid, input).s.puts);
    }
  }

  lemma OtherStillOk(l: C.Local, call: nat, puts: seq<C.Event>, puts': seq<C.Event>)
    requires EnqueueOk(l, call, puts) && puts <= puts'
    ensures EnqueueOk(l, call, puts')
  {
  }

  lemma StepInOrder(h: Traced, size: nat, tid: nat, input: C.Input)
    requires C.WellFormed(h.s, size) && C.Inv(h.s, size) && InOrder(h)
    ensures InOrder(TracedStep(h, size, tid, input))
  {
    var h' := TracedStep(h, size, tid, input);
    StepShape(h.s, size, tid, input);
    assert |h'.began| == |h'.s.puts|;
    forall k | 0 <= k < |h'.began|
      ensures h'.began[k] <= k && AllBefore(h'.s.puts, h'.began[k], h'.s.puts[k].ring, h'.s.puts[k].ticket)
    {
      PutsInOrder(h, size, tid, input, k);
    }
    forall u: nat ensures EnqueueOk(C.LocalOf(h'.s, u), CallOf(h', u), h'.s.puts) { ThreadInOrder(h, size, tid, input, u); }
  }

  // ----- Heads -----

  lemma MoveHead(l: C.Local, r: C.Ring, last: bool, tid: nat)
    requires C.WithinRing(l) && |r.cells| > 0
    ensures var m := C.MoveOf(l, r, last, tid);
      (m.ring.head == r.head || l.DeqFaa?) && !m.local.DeqFaa?
  {
    if C.IsEnqueue(l) { EnqHead(l, r, last, tid); } else { DeqHeads(l, r, last, tid); }
  }

  lemma EnqHead(l: C.Local, r: C.Ring, last: bool, tid: nat)
    requires C.IsEnqueue(l) && C.WithinRing(l) && |r.cells| > 0
    ensures var m := C.EnqMove(l, r, last, tid); m.ring.head == r.head && !m.local.DeqFaa?
  {
  }

  lemma DeqHeads(l: C.Local, r: C.Ring, last: bool, tid: nat)
    requires !C.IsEnqueue(l) && C.WithinRing(l) && |r.cells| > 0
    ensures var m := C.DeqMove(l, r, last, tid); (m.ring.head == r.head || l.DeqFaa?) && !m.local.DeqFaa?
  {
  }

  lemma StepHeads(s: C.State, size: nat, tid: nat, input: C.Input)
    requires C.WellFormed(s, size) && HeadsOk(s)
    ensures HeadsOk(C.Step(s, size, tid, input))
  {
    var t, l := C.Step(s, size, tid, input), C.LocalOf(s, tid);
    if C.WithinRing(l) {
      assert tid in s.threads && C.InRange(l, |s.rings|);
      C.StepWithinRing(s, size, tid, input);
      MoveHead(l, s.rings[l.ring], l.ring + 1 == |s.rings|, tid);
    }
    forall u: nat | C.LocalOf(t, u).DeqFaa? ensures C.LocalOf(t, u).ring <= t.qhead {
      if u != tid { OtherThreads(s, size, tid, input, u); }
    }
  }

  // ----- Runs -----

  lemma {:induction false} TracedRunKeeps(h: Traced, size: nat, schedule: C.Schedule)
    requires OrderInv(h, size)
    ensures OrderInv(TracedRun(h, size, schedule), size)
    ensures TracedRun(h, size, schedule).s == C.Run(h.s, size, schedule)
    decreases |schedule|
  {
    if schedule != [] && C.WellFormed(h.s, size) {
      var (tid, input) := schedule[0];
      C.StepKeepsInv(h.s, size, tid, input);
      StepInOrder(h, size, tid, input);
      StepHeads(h.s, size, tid, input);
      TracedRunKeeps(TracedStep(h, size, tid, input), size, schedule[1..]);
    }
  }

  lemma TracedReachedInv(size: nat, schedule: C.Schedule)
    requires size > 0
    ensures OrderInv(TracedReached(size, schedule), size)
    ensures TracedReached(size, schedule).s == C.Reached(size, schedule)
  {
    C.InitInv(size);
    TracedRunKeeps(Traced(C.Init(size), map[], []), size, schedule);
  }

  lemma {:induction false} TracedConcat(h: Traced, size: nat, a: C.Schedule, b: C.Schedule)
    requires C.Inv(h.s, size)
    ensures TracedRun(h, size, a + b) == TracedRun(TracedRun(h, size, a), size, b)
    decreases |a|
  {
    if a == [] {
      assert a + b == b;
    } else {
      assert (a + b)[1..] == a[1..] + b;
      C.InvWellFormed(h.s, size);
      C.StepKeepsInv(h.s, size, a[0].0, a[0].1);
      TracedConcat(TracedStep(h, size, a[0].0, a[0].1), size, a[1..], b);
    }
  }

  lemma OneTurn(h: Traced, size: nat, tid: nat, input: C.Input)
    requires C.WellFormed(h.s, size)
    ensures TracedRun(h, size, [(tid, input)]) == TracedStep(h, size, tid, input)
  {
  }

  // ----- Main results -----

  /** An enqueue that completed before another one began is ahead of it: in an earlier ring, or under an earlier
      ticket. */
  lemma EnqueueOrder(size: nat, schedule: C.Schedule, a: nat, b: nat)
    requires size > 0
    ensures var h := TracedReached(size, schedule);
      |h.began| == |h.s.puts| && (b < |h.began| && a < h.began[b] ==>
        a < b && Before(h.s.puts[a], h.s.puts[b].ring, h.s.puts[b].ticket))
  {
    TracedReachedInv(size, schedule);
    var h := TracedReached(size, schedule);
    if b < |h.began| && a < h.began[b] { assert AllBefore(h.s.puts, h.began[b], h.s.puts[b].ring, h.s.puts[b].ticket); }
  }

  /** A ticket before one that was taken has been issued to a dequeuer. */
  lemma TicketPassed(h: Traced, size: nat, a: nat, b: C.Event)
    requires OrderInv(h, size) && a < |h.s.puts| && Before(h.s.puts[a], b.ring, b.ticket) && C.WasTaken(h.s.rings, b)
    ensures h.s.puts[a].ring < |h.s.rings| && h.s.puts[a].ticket < h.s.rings[h.s.puts[a].ring].head
  {
    var e := h.s.puts[a];
    assert C.WasStored(h.s.rings, e);
    assert C.RingInv(h.s.rings[e.ring]) && C.RingInv(h.s.rings[b.ring]);
    assert C.Gone(h.s.rings[b.ring], b.ticket);
    if e.ring < b.ring { assert C.Sealed(h.s.rings[e.ring]); }
  }

  /** First in, first out: when the value of an enqueue b is returned, that of every enqueue a completed before b
      began has been returned, or a dequeuer is at its cell. */
  lemma FirstOut(size: nat, schedule: C.Schedule, a: nat, b: nat)
    requires size > 0
    ensures var h := TracedReached(size, schedule);
      |h.began| == |h.s.puts| && (b < |h.began| && a < h.began[b] <= b && h.s.puts[b] in h.s.gets ==>
        h.s.puts[a] in h.s.gets || exists tid :: C.StandsAt(h.s.threads, tid, h.s.puts[a].ring, h.s.puts[a].ticket))
  {
    TracedReachedInv(size, schedule);
    EnqueueOrder(size, schedule, a, b);
    var h := TracedReached(size, schedule);
    if b < |h.began| && a < h.began[b] && h.s.puts[b] in h.s.gets {
      var k :| 0 <= k < |h.s.gets| && h.s.gets[k] == h.s.puts[b];
      assert C.WasTaken(h.s.rings, h.s.gets[k]);
      TicketPassed(h, size, a, h.s.puts[b]);
      TakenOrHeld(h.s, size, h.s.puts[a]);
    }
  }

  lemma TakenOrHeld(s: C.State, size: nat, e: C.Event)
    requires C.Inv(s, size) && C.WasStored(s.rings, e) && e.ticket < s.rings[e.ring].head
    ensures e in s.gets || exists tid :: C.StandsAt(s.threads, tid, e.ring, e.ticket)
  {
    var r := s.rings[e.ring];
    assert C.RingInv(r);
    if e.ticket in r.taken {
      assert C.Event(e.ring, e.ticket, r.taken[e.ticket]) in s.gets;
    } else {
      assert e.ticket in r.holders;
      assert C.StandsAt(s.threads, r.holders[e.ticket], e.ring, e.ticket);
    }
  }
}
