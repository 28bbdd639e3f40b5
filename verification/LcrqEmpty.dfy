/** When a dequeue of the lock-free queue returns nothing: what was enqueued before it began is gone, or a dequeuer stands
    at its cell. */
module LcrqEmpty {
  import opened Wrappers
  import C = LcrqConcurrent
  import O = LcrqOrder

  /** The step of a thread that is in a dequeue ends the dequeue without a value. */
  predicate ReturnsNothing(s: C.State, t: C.State, tid: nat) {
    var l := C.LocalOf(s, tid);
    !l.Idle? && !C.IsEnqueue(l) && C.LocalOf(t, tid).Idle? && t.gets == s.gets
  }

  /** Accesses of the quick test to a ring. */
  predicate InTest(l: C.Local) {
    l.QuickTail? || l.QuickHead? || l.QuickNext?
  }

  /** The quick test loaded the queue's head pointer more than once, and the pointer moved on in between. */
  predicate HeadMoved(l: C.Local) {
    l.QuickNext? && l.ring != l.first
  }

  // ----- The invariant -----

  /** The first k completed enqueues are in a later ring, or dequeuers come to them before they come to a ticket. */
  ghost predicate Passed(puts: seq<C.Event>, k: nat, ring: nat, ticket: nat) {
    k <= |puts| && forall a :: 0 <= a < k ==> puts[a].ring > ring || O.Before(puts[a], ring, ticket)
  }

  function HeadOf(rings: seq<C.Ring>, i: nat): nat {
    if i < |rings| then rings[i].head else 0
  }

  /** A dequeue that found its ring used up, before it looks whether there is a next one. */
  predicate Returning(l: C.Local) {
    C.Fixes(l) || l.DeqNext?
  }

  ghost predicate QuickOk(l: C.Local, call: nat, puts: seq<C.Event>, rings: seq<C.Ring>, qhead: nat) {
    && (l.QuickTail? ==> l.ring <= qhead)
    && (l.QuickLoad? ==> l.first <= qhead && Passed(puts, call, l.first, l.tail))
    && (l.QuickHead? ==> l.first <= l.ring <= qhead && Passed(puts, call, l.first, l.tail))
    && (l.QuickLast? ==> l.first < qhead || (l.first == qhead && Passed(puts, call, l.first, HeadOf(rings, l.first))))
    && (l.QuickNext? ==>
          l.ring == l.first ==> l.first <= qhead && Passed(puts, call, l.first, HeadOf(rings, l.first)))
  }

  ghost predicate DequeueOk(l: C.Local, call: nat, puts: seq<C.Event>, rings: seq<C.Ring>, qhead: nat) {
    && (!C.IsEnqueue(l) && !l.Idle? ==> call <= |puts|)
    && QuickOk(l, call, puts, rings, qhead)
    && (Returning(l) ==> l.ring <= qhead && Passed(puts, call, l.ring, l.h + 1))
  }

  ghost predicate EmptyInv(h: O.Traced) {
    forall tid: nat :: ThreadOk(h, tid)
  }

  ghost predicate ThreadOk(h: O.Traced, u: nat) {
    DequeueOk(C.LocalOf(h.s, u), O.CallOf(h, u), h.s.puts, h.s.rings, h.s.qhead)
  }

  // ----- Reading the tail -----

  /** What is stored in a ring was stored under tickets below its tail. */
  lemma BelowTail(s: C.State, size: nat, i: nat, k: nat, bound: nat)
    requires C.Inv(s, size) && i < |s.rings| && s.rings[i].tail.index <= bound && k <= |s.puts|
    ensures Passed(s.puts, k, i, bound)
  {
    forall a | 0 <= a < k ensures s.puts[a].ring > i || O.Before(s.puts[a], i, bound) {
      assert C.WasStored(s.rings, s.puts[a]);
      assert C.RingInv(s.rings[s.puts[a].ring]);
    }
  }

  lemma Widened(puts: seq<C.Event>, puts': seq<C.Event>, k: nat, ring: nat, ticket: nat, ticket': nat)
    requires Passed(puts, k, ring, ticket) && puts <= puts' && ticket <= ticket'
    ensures Passed(puts', k, ring, ticket')
  {
  }

  // ----- Steps keep it -----

  lemma OthersOk(l: C.Local, call: nat, s: C.State, t: C.State)
    requires DequeueOk(l, call, s.puts, s.rings, s.qhead) && C.Extends(s, t)
    ensures DequeueOk(l, call, t.puts, t.rings, t.qhead)
  {
    forall i: nat ensures HeadOf(s.rings, i) <= HeadOf(t.rings, i) {
      if i < |s.rings| { assert C.RingGrows(s.rings[i], t.rings[i]); }
    }
    if Returning(l) { Widened(s.puts, t.puts, call, l.ring, l.h + 1, l.h + 1); }
    QuickStays(l, call, s, t);
  }

  lemma QuickStays(l: C.Local, call: nat, s: C.State, t: C.State)
    requires QuickOk(l, call, s.puts, s.rings, s.qhead) && s.puts <= t.puts && s.qhead <= t.qhead
    requires forall i: nat :: HeadOf(s.rings, i) <= HeadOf(t.rings, i)
    ensures QuickOk(l, call, t.puts, t.rings, t.qhead)
  {
    if l.QuickLoad? || l.QuickHead? {
      Widened(s.puts, t.puts, call, l.first, l.tail, l.tail);
    } else if (l.QuickLast? && l.first >= t.qhead) || (l.QuickNext? && l.ring == l.first) {
      Widened(s.puts, t.puts, call, l.first, HeadOf(s.rings, l.first), HeadOf(t.rings, l.first));
    }
  }

  /** Where an access within a ring takes a dequeue. */
  ghost predicate Goes(l: C.Local, l': C.Local, r: C.Ring, last: bool) {
    && !l'.QuickTail? && !l'.DeqQuick?
    && (l'.QuickLoad? ==> l.QuickTail? && l.reload && l' == C.QuickLoad(l.ring, r.tail.index))
    && (l'.QuickHead? ==> l.QuickTail? && l' == C.QuickHead(l.ring, l.ring, r.tail.index, false))
    && (l'.QuickLast? ==> l.QuickHead? && l.reload && l.tail <= r.head && l' == C.QuickLast(l.first))
    && (l'.QuickNext? ==> l.QuickHead? && l.tail <= r.head && l' == C.QuickNext(l.ring, l.first))
    && (Returning(l') ==> (Returning(l) || (l.DeqCheck? && r.tail.index <= l.h + 1)) && l'.ring == l.ring && l'.h == l.h)
    && (l'.Idle? ==> last || !(Returning(l) || l.QuickNext?))
  }

  lemma TestGoes(l: C.Local, r: C.Ring, last: bool, tid: nat)
    requires InTest(l) && |r.cells| > 0
    ensures Goes(l, C.DeqMove(l, r, last, tid).local, r, last) && !C.IsEnqueue(C.DeqMove(l, r, last, tid).local)
  {
  }

  lemma TicketGoes(l: C.Local, r: C.Ring, last: bool, tid: nat)
    requires !C.IsEnqueue(l) && C.WithinRing(l) && !InTest(l) && |r.cells| > 0
    ensures Goes(l, C.DeqMove(l, r, last, tid).local, r, last) && !C.IsEnqueue(C.DeqMove(l, r, last, tid).local)
  {
  }

  lemma DeqGoes(l: C.Local, r: C.Ring, last: bool, tid: nat)
    requires !C.IsEnqueue(l) && C.WithinRing(l) && |r.cells| > 0
    ensures Goes(l, C.DeqMove(l, r, last, tid).local, r, last) && !C.IsEnqueue(C.DeqMove(l, r, last, tid).local)
  {
    if InTest(l) { TestGoes(l, r, last, tid); } else { TicketGoes(l, r, last, tid); }
  }

  lemma EnqLeaves(l: C.Local, r: C.Ring, last: bool, tid: nat)
    requires C.IsEnqueue(l) && C.WithinRing(l) && |r.cells| > 0
    ensures var l' := C.EnqMove(l, r, last, tid).local; C.IsEnqueue(l') || l'.Idle?
  {
  }

  lemma QuickMoves(s: C.State, size: nat, tid: nat, call: nat, l': C.Local)
    requires C.Inv(s, size) && C.WithinRing(C.LocalOf(s, tid)) && C.LocalOf(s, tid).ring < |s.rings|
    requires var l := C.LocalOf(s, tid); Goes(l, l', s.rings[l.ring], l.ring + 1 == |s.rings|)
    requires DequeueOk(C.LocalOf(s, tid), call, s.puts, s.rings, s.qhead) && !C.IsEnqueue(C.LocalOf(s, tid))
    ensures QuickOk(l', call, s.puts, s.rings, s.qhead)
  {
    var l := C.LocalOf(s, tid);
    var r := s.rings[l.ring];
    if l'.QuickLoad? || l'.QuickHead? {
      BelowTail(s, size, l.ring, call, r.tail.index);
    } else if (l'.QuickLast? || l'.QuickNext?) && l.ring == l.first {
      Widened(s.puts, s.puts, call, l.first, l.tail, r.head);
    }
  }

  lemma ReturningMoves(s: C.State, size: nat, tid: nat, call: nat, l': C.Local)
    requires C.Inv(s, size) && O.HeadsOk(s) && C.WithinRing(C.LocalOf(s, tid)) && C.LocalOf(s, tid).ring < |s.rings|
    requires var l := C.LocalOf(s, tid); Goes(l, l', s.rings[l.ring], l.ring + 1 == |s.rings|)
    requires DequeueOk(C.LocalOf(s, tid), call, s.puts, s.rings, s.qhead) && Returning(l')
    requires !C.IsEnqueue(C.LocalOf(s, tid))
    ensures l'.ring <= s.qhead && Passed(s.puts, call, l'.ring, l'.h + 1)
  {
    var l := C.LocalOf(s, tid);
    if l.DeqCheck? {
      assert C.ThreadOk(tid, l, s.rings);
      BelowTail(s, size, l.ring, call, l.h + 1);
    }
  }

  /** The thread's own place, as if nothing else had changed yet. */
  lemma OwnMoves(s: C.State, size: nat, tid: nat, call: nat, l': C.Local)
    requires C.Inv(s, size) && O.HeadsOk(s) && C.WithinRing(C.LocalOf(s, tid)) && C.LocalOf(s, tid).ring < |s.rings|
    requires var l := C.LocalOf(s, tid); Goes(l, l', s.rings[l.ring], l.ring + 1 == |s.rings|)
    requires DequeueOk(C.LocalOf(s, tid), call, s.puts, s.rings, s.qhead) && !C.IsEnqueue(C.LocalOf(s, tid))
    ensures DequeueOk(l', call, s.puts, s.rings, s.qhead)
  {
    QuickMoves(s, size, tid, call, l');
    if Returning(l') { ReturningMoves(s, size, tid, call, l'); }
  }

  /** Where calls, links and loads of the queue's head pointer take a thread. */
  ghost predicate Follows(l: C.Local, l': C.Local, qhead: nat, input: C.Input) {
    && (l'.DeqQuick? ==> l.Idle? && input == C.CallDequeue(l'.reload))
    && (l'.QuickTail? ==> l.DeqQuick? && l' == C.QuickTail(qhead, l.reload))
    && (l'.QuickHead? ==> l.QuickLoad? && l' == C.QuickHead(qhead, l.first, l.tail, true))
    && (l'.QuickNext? ==> l.QuickLast? && l' == C.QuickNext(qhead, l.first))
    && !l'.QuickLoad? && !l'.QuickLast? && !Returning(l')
    && (C.IsEnqueue(l) ==> C.IsEnqueue(l') || l'.Idle?)
  }

  /** Where an access takes a thread. */
  ghost predicate Arrives(s: C.State, l: C.Local, l': C.Local, input: C.Input) {
    if !C.WithinRing(l) then Follows(l, l', s.qhead, input)
    else if C.IsEnqueue(l) then C.IsEnqueue(l') || l'.Idle?
    else l.ring < |s.rings| && !C.IsEnqueue(l') && Goes(l, l', s.rings[l.ring], l.ring + 1 == |s.rings|)
  }

  lemma StepFollows(s: C.State, size: nat, tid: nat, input: C.Input)
    requires C.WellFormed(s, size) && !C.WithinRing(C.LocalOf(s, tid))
    ensures Follows(C.LocalOf(s, tid), C.LocalOf(C.Step(s, size, tid, input), tid), s.qhead, input)
  {
  }

  lemma StepArrives(s: C.State, size: nat, tid: nat, input: C.Input)
    requires C.WellFormed(s, size)
    ensures Arrives(s, C.LocalOf(s, tid), C.LocalOf(C.Step(s, size, tid, input), tid), input)
  {
    var l := C.LocalOf(s, tid);
    if !C.WithinRing(l) {
      StepFollows(s, size, tid, input);
    } else {
      assert tid in s.threads && C.InRange(l, |s.rings|);
      C.StepWithinRing(s, size, tid, input);
      if C.IsEnqueue(l) { EnqLeaves(l, s.rings[l.ring], l.ring + 1 == |s.rings|, tid); }
      else { DeqGoes(l, s.rings[l.ring], l.ring + 1 == |s.rings|, tid); }
    }
  }

  lemma OutsideOk(l: C.Local, call: nat, puts: seq<C.Event>, rings: seq<C.Ring>, qhead: nat)
    requires C.IsEnqueue(l) || l.Idle?
    ensures DequeueOk(l, call, puts, rings, qhead)
  {
  }

  lemma FollowsOk(l: C.Local, l': C.Local, call: nat, puts: seq<C.Event>, rings: seq<C.Ring>, qhead: nat, input: C.Input)
    requires DequeueOk(l, call, puts, rings, qhead) && (l.Idle? ==> call <= |puts|) && Follows(l, l', qhead, input)
    ensures DequeueOk(l', call, puts, rings, qhead)
  {
  }

  /** Where the thread goes is right for what the state was. */
  lemma PlaceOk(s: C.State, size: nat, tid: nat, l': C.Local, input: C.Input, call: nat)
    requires C.Inv(s, size) && O.HeadsOk(s) && Arrives(s, C.LocalOf(s, tid), l', input)
    requires DequeueOk(C.LocalOf(s, tid), call, s.puts, s.rings, s.qhead) && (C.LocalOf(s, tid).Idle? ==> call <= |s.puts|)
    ensures DequeueOk(l', call, s.puts, s.rings, s.qhead)
  {
    var l := C.LocalOf(s, tid);
    if !C.WithinRing(l) { FollowsOk(l, l', call, s.puts, s.rings, s.qhead, input); }
    else if C.IsEnqueue(l) { OutsideOk(l', call, s.puts, s.rings, s.qhead); }
    else { OwnMoves(s, size, tid, call, l'); }
  }

  /** How many enqueues had completed when the operation began that the next step of a thread belongs to. */
  function CallFrom(h: O.Traced, tid: nat): nat {
    if C.LocalOf(h.s, tid).Idle? then |h.s.puts| else O.CallOf(h, tid)
  }

  lemma CallFromOk(h: O.Traced, tid: nat)
    requires ThreadOk(h, tid)
    ensures DequeueOk(C.LocalOf(h.s, tid), CallFrom(h, tid), h.s.puts, h.s.rings, h.s.qhead)
    ensures C.LocalOf(h.s, tid).Idle? ==> CallFrom(h, tid) <= |h.s.puts|
  {
  }

  lemma CalledAt(h: O.Traced, size: nat, tid: nat, input: C.Input)
    requires C.WellFormed(h.s, size)
    ensures O.CallOf(O.TracedStep(h, size, tid, input), tid) == CallFrom(h, tid)
  {
  }

  lemma OwnOk(s: C.State, t: C.State, size: nat, tid: nat, input: C.Input, call: nat)
    requires C.Inv(s, size) && O.HeadsOk(s) && Arrives(s, C.LocalOf(s, tid), C.LocalOf(t, tid), input)
    requires DequeueOk(C.LocalOf(s, tid), call, s.puts, s.rings, s.qhead) && (C.LocalOf(s, tid).Idle? ==> call <= |s.puts|)
    requires C.Extends(s, t)
    ensures DequeueOk(C.LocalOf(t, tid), call, t.puts, t.rings, t.qhead)
  {
    PlaceOk(s, size, tid, C.LocalOf(t, tid), input, call);
    OthersOk(C.LocalOf(t, tid), call, s, t);
  }

  lemma OwnStepOk(s: C.State, size: nat, tid: nat, input: C.Input, call: nat)
    requires C.Inv(s, size) && C.WellFormed(s, size) && O.HeadsOk(s)
    requires DequeueOk(C.LocalOf(s, tid), call, s.puts, s.rings, s.qhead) && (C.LocalOf(s, tid).Idle? ==> call <= |s.puts|)
    ensures var t := C.Step(s, size, tid, input); DequeueOk(C.LocalOf(t, tid), call, t.puts, t.rings, t.qhead)
  {
    StepArrives(s, size, tid, input);
    C.StepExtends(s, size, tid, input);
    OwnOk(s, C.Step(s, size, tid, input), size, tid, input, call);
  }

  lemma MoverRecorded(h: O.Traced, size: nat, tid: nat, input: C.Input, call: nat)
    requires C.WellFormed(h.s, size)
    requires call == CallFrom(h, tid)
    requires var t := C.Step(h.s, size, tid, input); DequeueOk(C.LocalOf(t, tid), call, t.puts, t.rings, t.qhead)
    ensures ThreadOk(O.TracedStep(h, size, tid, input), tid)
  {
    CalledAt(h, size, tid, input);
  }

  lemma MoverOk(h: O.Traced, size: nat, tid: nat, input: C.Input)
    requires C.Inv(h.s, size) && C.WellFormed(h.s, size) && O.HeadsOk(h.s) && ThreadOk(h, tid)
    ensures ThreadOk(O.TracedStep(h, size, tid, input), tid)
  {
    var call := CallFrom(h, tid);
    CallFromOk(h, tid);
    OwnStepOk(h.s, size, tid, input, call);
    MoverRecorded(h, size, tid, input, call);
  }

  lemma OtherOk(h: O.Traced, size: nat, tid: nat, input: C.Input, u: nat)
    requires C.Inv(h.s, size) && C.WellFormed(h.s, size) && ThreadOk(h, u) && u != tid
    ensures ThreadOk(O.TracedStep(h, size, tid, input), u)
  {
    O.OtherThreads(h.s, size, tid, input, u);
    C.StepExtends(h.s, size, tid, input);
    OthersOk(C.LocalOf(h.s, u), O.CallOf(h, u), h.s, C.Step(h.s, size, tid, input));
  }

  lemma StepKeepsEmpty(h: O.Traced, size: nat, tid: nat, input: C.Input)
    requires C.Inv(h.s, size) && C.WellFormed(h.s, size) && O.HeadsOk(h.s) && EmptyInv(h)
    ensures EmptyInv(O.TracedStep(h, size, tid, input))
  {
    forall u: nat ensures ThreadOk(O.TracedStep(h, size, tid, input), u) {
      if u == tid { MoverOk(h, size, tid, input); } else { OtherOk(h, size, tid, input, u); }
    }
  }

  lemma {:induction false} RunKeepsEmpty(h: O.Traced, size: nat, schedule: C.Schedule)
    requires O.OrderInv(h, size) && EmptyInv(h)
    ensures EmptyInv(O.TracedRun(h, size, schedule))
    decreases |schedule|
  {
    if schedule != [] && C.WellFormed(h.s, size) {
      var (tid, input) := schedule[0];
      StepKeepsEmpty(h, size, tid, input);
      C.StepKeepsInv(h.s, size, tid, input);
      O.StepInOrder(h, size, tid, input);
      O.StepHeads(h.s, size, tid, input);
      RunKeepsEmpty(O.TracedStep(h, size, tid, input), size, schedule[1..]);
    }
  }

  lemma ReachedEmpty(size: nat, schedule: C.Schedule)
    requires size > 0
    ensures var h := O.TracedReached(size, schedule);
      O.OrderInv(h, size) && EmptyInv(h) && C.WellFormed(h.s, size)
  {
    O.TracedReachedInv(size, schedule);
    C.InitInv(size);
    RunKeepsEmpty(O.Traced(C.Init(size), map[], []), size, schedule);
    C.InvWellFormed(O.TracedReached(size, schedule).s, size);
  }

  // ----- Main results -----

  /** Only two accesses end a dequeue without a value, and only at the last ring. */
  lemma NothingFrom(s: C.State, size: nat, tid: nat, input: C.Input)
    requires C.WellFormed(s, size) && ReturnsNothing(s, C.Step(s, size, tid, input), tid)
    ensures var l := C.LocalOf(s, tid); (Returning(l) || l.QuickNext?) && l.ring + 1 == |s.rings|
  {
    var l := C.LocalOf(s, tid);
    if C.WithinRing(l) {
      assert tid in s.threads && C.InRange(l, |s.rings|);
      C.StepWithinRing(s, size, tid, input);
      IdleFrom(l, s.rings[l.ring], l.ring + 1 == |s.rings|, tid);
    }
  }

  lemma IdleFrom(l: C.Local, r: C.Ring, last: bool, tid: nat)
    requires !C.IsEnqueue(l) && C.WithinRing(l) && |r.cells| > 0 && C.DeqMove(l, r, last, tid).local.Idle?
    ensures C.DeqMove(l, r, last, tid).gets != [] || ((Returning(l) || l.QuickNext?) && last)
  {
  }

  /** In every ring up to the last, dequeuers have come to what was passed. */
  lemma PassedIssued(s: C.State, size: nat, a: nat, k: nat, ring: nat, ticket: nat)
    requires C.Inv(s, size) && ring + 1 == |s.rings| && ring <= s.qhead && ticket <= s.rings[ring].head
    requires Passed(s.puts, k, ring, ticket) && a < k
    ensures C.WasStored(s.rings, s.puts[a]) && s.puts[a].ticket < s.rings[s.puts[a].ring].head
  {
    var e := s.puts[a];
    assert C.WasStored(s.rings, e);
    assert C.RingInv(s.rings[e.ring]);
    if e.ring < ring { assert C.Sealed(s.rings[e.ring]); }
  }

  /** What a dequeue that ends without a value passed on its way. */
  lemma NothingPassed(s: C.State, size: nat, tid: nat, input: C.Input, call: nat, a: nat)
    requires C.Inv(s, size) && C.WellFormed(s, size) && ReturnsNothing(s, C.Step(s, size, tid, input), tid)
    requires DequeueOk(C.LocalOf(s, tid), call, s.puts, s.rings, s.qhead) && !HeadMoved(C.LocalOf(s, tid)) && a < call
    ensures a < |s.puts| && C.WasStored(s.rings, s.puts[a]) && s.puts[a].ticket < s.rings[s.puts[a].ring].head
  {
    var l := C.LocalOf(s, tid);
    NothingFrom(s, size, tid, input);
    if l.QuickNext? {
      PassedIssued(s, size, a, call, l.ring, s.rings[l.ring].head);
    } else {
      assert C.ThreadOk(tid, l, s.rings);
      PassedIssued(s, size, a, call, l.ring, l.h + 1);
    }
  }

  /** In every run: when a dequeue returns nothing, the value of every enqueue that completed before the dequeue began has
      been returned, or a dequeuer stands at its cell.  The one exception is a quick test that saw the queue's head
      pointer move. */
  lemma EmptyHanded(size: nat, schedule: C.Schedule, tid: nat, input: C.Input, a: nat)
    requires size > 0
    ensures var h := O.TracedReached(size, schedule);
      && C.WellFormed(h.s, size)
      && var t := C.Step(h.s, size, tid, input);
         ReturnsNothing(h.s, t, tid) && !HeadMoved(C.LocalOf(h.s, tid)) && a < O.CallOf(h, tid) ==>
           && a < |h.s.puts|
           && (h.s.puts[a] in t.gets
               || exists u :: C.StandsAt(t.threads, u, h.s.puts[a].ring, h.s.puts[a].ticket))
  {
    ReachedEmpty(size, schedule);
    var h := O.TracedReached(size, schedule);
    var t := C.Step(h.s, size, tid, input);
    if ReturnsNothing(h.s, t, tid) && !HeadMoved(C.LocalOf(h.s, tid)) && a < O.CallOf(h, tid) {
      assert ThreadOk(h, tid);
      NothingPassed(h.s, size, tid, input, O.CallOf(h, tid), a);
      C.StepExtends(h.s, size, tid, input);
      C.StepKeepsInv(h.s, size, tid, input);
      var e := h.s.puts[a];
      assert C.RingGrows(h.s.rings[e.ring], t.rings[e.ring]);
      O.TakenOrHeld(t, size, e);
    }
  }

  // ----- A pointer loaded once -----

  ghost predicate LoadsOnce(schedule: C.Schedule) {
    forall k :: 0 <= k < |schedule| ==> schedule[k].1 != C.CallDequeue(true)
  }

  /** No quick test loads the pointer again. */
  predicate KeepsPointer(l: C.Local) {
    && (l.DeqQuick? || l.QuickTail? || l.QuickHead? ==> !l.reload)
    && !l.QuickLoad? && !l.QuickLast?
    && (l.QuickHead? || l.QuickNext? ==> l.ring == l.first)
  }

  lemma ArrivesKeepsPointer(s: C.State, l: C.Local, l': C.Local, input: C.Input)
    requires Arrives(s, l, l', input) && KeepsPointer(l) && input != C.CallDequeue(true)
    ensures KeepsPointer(l')
  {
  }

  lemma StepKeepsPointer(s: C.State, size: nat, tid: nat, input: C.Input, u: nat)
    requires C.WellFormed(s, size) && input != C.CallDequeue(true)
    requires KeepsPointer(C.LocalOf(s, tid)) && KeepsPointer(C.LocalOf(s, u))
    ensures KeepsPointer(C.LocalOf(C.Step(s, size, tid, input), u))
  {
    if u != tid {
      O.OtherThreads(s, size, tid, input, u);
    } else {
      StepArrives(s, size, tid, input);
      ArrivesKeepsPointer(s, C.LocalOf(s, tid), C.LocalOf(C.Step(s, size, tid, input), tid), input);
    }
  }

  lemma {:induction false} RunKeepsPointer(s: C.State, size: nat, schedule: C.Schedule, u: nat)
    requires LoadsOnce(schedule) && forall tid: nat :: KeepsPointer(C.LocalOf(s, tid))
    ensures KeepsPointer(C.LocalOf(C.Run(s, size, schedule), u))
    decreases |schedule|
  {
    if schedule != [] && C.WellFormed(s, size) {
      var t := C.Step(s, size, schedule[0].0, schedule[0].1);
      forall tid: nat ensures KeepsPointer(C.LocalOf(t, tid)) {
        StepKeepsPointer(s, size, schedule[0].0, schedule[0].1, tid);
      }
      RunKeepsPointer(t, size, schedule[1..], u);
    }
  }

  /** If the program loads the head pointer once, there is no exception. */
  lemma EmptyHandedLoadingOnce(size: nat, schedule: C.Schedule, tid: nat, input: C.Input, a: nat)
    requires size > 0 && LoadsOnce(schedule)
    ensures var h := O.TracedReached(size, schedule);
      && C.WellFormed(h.s, size)
      && var t := C.Step(h.s, size, tid, input);
         ReturnsNothing(h.s, t, tid) && a < O.CallOf(h, tid) ==>
           && a < |h.s.puts|
           && (h.s.puts[a] in t.gets
               || exists u :: C.StandsAt(t.threads, u, h.s.puts[a].ring, h.s.puts[a].ticket))
  {
    O.TracedReachedInv(size, schedule);
    RunKeepsPointer(C.Init(size), size, schedule, tid);
    EmptyHanded(size, schedule, tid, input, a);
  }
}
