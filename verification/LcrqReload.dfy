/** A run in which a quick test that loads the queue's head pointer each time says that a queue with a value is empty. */
module LcrqReload {
  import opened Wrappers
  import C = LcrqConcurrent
  import O = LcrqOrder
  import E = LcrqEmpty

  // ----- Reachable states, one access at a time -----

  ghost predicate Reachable(h: O.Traced) {
    exists schedule: C.Schedule :: h == O.TracedReached(1, schedule)
  }

  /** Steps lead from states with p to states with p: all that the run below needs to know of being reachable. */
  ghost predicate Closed(p: O.Traced -> bool) {
    && p(O.Traced(C.Init(1), map[], []))
    && (forall h: O.Traced {:trigger C.WellFormed(h.s, 1)} :: p(h) ==> C.WellFormed(h.s, 1))
    && forall h: O.Traced, tid: nat, input: C.Input {:trigger O.TracedStep(h, 1, tid, input)} ::
         p(h) && C.WellFormed(h.s, 1) ==> p(O.TracedStep(h, 1, tid, input))
  }

  lemma ReachableInv(h: O.Traced)
    requires Reachable(h)
    ensures C.WellFormed(h.s, 1)
  {
    var schedule :| h == O.TracedReached(1, schedule);
    O.TracedReachedInv(1, schedule);
    C.InvWellFormed(h.s, 1);
  }

  lemma ReachableSteps(h: O.Traced, schedule: C.Schedule, tid: nat, input: C.Input)
    requires h == O.TracedReached(1, schedule) && C.WellFormed(h.s, 1)
    ensures O.TracedStep(h, 1, tid, input) == O.TracedReached(1, schedule + [(tid, input)])
  {
    C.InitInv(1);
    O.TracedConcat(O.Traced(C.Init(1), map[], []), 1, schedule, [(tid, input)]);
    O.OneTurn(h, 1, tid, input);
  }

  lemma ReachableClosed()
    ensures Closed(h => Reachable(h))
  {
    assert O.Traced(C.Init(1), map[], []) == O.TracedReached(1, []);
    forall h: O.Traced | Reachable(h) ensures C.WellFormed(h.s, 1) { ReachableInv(h); }
    forall h: O.Traced, tid: nat, input: C.Input | Reachable(h) && C.WellFormed(h.s, 1)
      ensures Reachable(O.TracedStep(h, 1, tid, input))
    {
      var schedule :| h == O.TracedReached(1, schedule);
      ReachableSteps(h, schedule, tid, input);
    }
  }

  /** An access to the ring where the thread is. */
  lemma Act(p: O.Traced -> bool, h: O.Traced, tid: nat, m: C.Move) returns (h': O.Traced)
    requires Closed(p) && p(h) && C.WithinRing(C.LocalOf(h.s, tid)) && C.LocalOf(h.s, tid).ring < |h.s.rings|
    requires var from := C.LocalOf(h.s, tid); var r := h.s.rings[from.ring];
      |r.cells| > 0 && C.MoveOf(from, r, from.ring + 1 == |h.s.rings|, tid) == m
    ensures p(h') && h'.s == C.Apply(h.s, tid, C.LocalOf(h.s, tid).ring, m) && h'.calls == h.calls
  {
    h' := O.TracedStep(h, 1, tid, C.CallEnqueue(0));
    C.StepWithinRing(h.s, 1, tid, C.CallEnqueue(0));
  }

  /** A call, or a load of the queue's head pointer. */
  lemma Load(p: O.Traced -> bool, h: O.Traced, tid: nat, input: C.Input) returns (h': O.Traced)
    requires Closed(p) && p(h) && C.NoRing(C.LocalOf(h.s, tid))
    ensures p(h') && h'.calls == if C.LocalOf(h.s, tid).Idle? then h.calls[tid := |h.s.puts|] else h.calls
    ensures h'.s == C.Goto(h.s, tid,
      match C.LocalOf(h.s, tid)
      case DeqQuick(reload) => C.QuickTail(h.s.qhead, reload)
      case QuickLoad(first, tail) => C.QuickHead(h.s.qhead, first, tail, true)
      case QuickLast(first) => C.QuickNext(h.s.qhead, first)
      case DeqHead => C.DeqFaa(h.s.qhead)
      case _ => match input case CallEnqueue(v) => C.EnqNext(v, 0, 0) case CallDequeue(reload) => C.DeqQuick(reload))
  {
    h' := O.TracedStep(h, 1, tid, input);
  }

  // ----- The run -----

  /** The first ring as the run goes by it, how many rings there are, and how many values were enqueued. */
  datatype Scene = Scene(cell: C.Cell<C.Value>, head: nat, tail: C.Tail, n: nat, puts: nat)

  predicate Shows(r: C.Ring, sc: Scene) {
    r.cells == [sc.cell] && r.head == sc.head && r.tail == sc.tail
  }

  ghost predicate NotStarted(threads: map<nat, C.Local>, tid: nat) {
    forall u: nat :: u > tid ==> u !in threads
  }

  /** A second ring has had 9, only the first has been dequeued from, and the queue's head pointer is still at it.  One
      thread is at a place, and those after it have not started. */
  ghost predicate At(p: O.Traced -> bool, h: O.Traced, sc: Scene, tid: nat, l: C.Local) {
    && p(h) && 1 <= |h.s.rings| == sc.n && |h.s.puts| == sc.puts && h.s.qhead == 0
    && Shows(h.s.rings[0], sc)
    && (sc.n == 2 ==> sc.puts == 2 && h.s.rings[1] == C.SoloRing(1, 9) && h.s.puts[1] == C.Event(1, 0, 9))
    && (forall k :: 0 <= k < |h.s.gets| ==> h.s.gets[k].ring == 0)
    && C.LocalOf(h.s, tid) == l && NotStarted(h.s.threads, tid)
    && (tid == 5 ==> C.LocalOf(h.s, 4) == C.DeqSwing(0, 1) && O.CallOf(h, 5) == 2)
  }

  /** A thread in the first ring moves, and stores nothing. */
  lemma Moves(p: O.Traced -> bool, h: O.Traced, sc: Scene, tid: nat, l: C.Local, m: C.Move, sc': Scene)
    returns (h': O.Traced)
    requires Closed(p) && At(p, h, sc, tid, l) && C.WithinRing(l) && l.ring == 0
    requires C.MoveOf(l, h.s.rings[0], sc.n == 1, tid) == m && m.puts == []
    requires Shows(m.ring, sc') && sc'.n == sc.n && sc'.puts == sc.puts && forall k :: 0 <= k < |m.gets| ==> m.gets[k].ring == 0
    ensures At(p, h', sc', tid, m.local)
  {
    h' := Act(p, h, tid, m);
    assert h.s.puts + [] == h.s.puts;
  }

  function Picture(sc: Scene): C.Ring {
    C.Ring([sc.cell], sc.head, sc.tail, 0, map[], map[], {}, map[], map[])
  }

  /** From one place the next access of a thread only reads, and leads to the other. */
  predicate LeadsTo(sc: Scene, tid: nat, l: C.Local, l': C.Local) {
    && C.WithinRing(l) && l.ring == 0 && !l.EnqFaa? && !l.EnqClose? && !l.DeqFaa? && !l.DeqShut? && !l.FixCas? && !l'.EnqFull?
    && C.MoveOf(l, Picture(sc), sc.n == 1, tid) == C.Stay(Picture(sc), l')
  }

  lemma SameRead(r: C.Ring, sc: Scene, tid: nat, l: C.Local, l': C.Local)
    requires Shows(r, sc) && LeadsTo(sc, tid, l, l')
    ensures C.MoveOf(l, r, sc.n == 1, tid) == C.Stay(r, l')
  {
    if C.IsEnqueue(l) { SameEnq(r, sc, tid, l, l'); } else { SameDeq(r, sc, tid, l, l'); }
  }

  lemma SameEnq(r: C.Ring, sc: Scene, tid: nat, l: C.Local, l': C.Local)
    requires Shows(r, sc) && LeadsTo(sc, tid, l, l') && C.IsEnqueue(l)
    ensures C.MoveOf(l, r, sc.n == 1, tid) == C.Stay(r, l')
  {
  }

  lemma SameDeq(r: C.Ring, sc: Scene, tid: nat, l: C.Local, l': C.Local)
    requires Shows(r, sc) && LeadsTo(sc, tid, l, l') && !C.IsEnqueue(l)
    ensures C.MoveOf(l, r, sc.n == 1, tid) == C.Stay(r, l')
  {
  }

  predicate Path(sc: Scene, tid: nat, path: seq<C.Local>) {
    path != [] && forall k :: 0 <= k < |path| - 1 ==> LeadsTo(sc, tid, path[k], path[k + 1])
  }

  /** A thread takes a path of reads. */
  lemma {:induction false} Reads(p: O.Traced -> bool, h: O.Traced, sc: Scene, tid: nat, path: seq<C.Local>)
    returns (h': O.Traced)
    requires Closed(p) && Path(sc, tid, path) && At(p, h, sc, tid, path[0])
    ensures At(p, h', sc, tid, path[|path| - 1])
    decreases |path|
  {
    h' := h;
    if |path| > 1 {
      assert LeadsTo(sc, tid, path[0], path[1]);
      SameRead(h.s.rings[0], sc, tid, path[0], path[1]);
      var g := Moves(p, h, sc, tid, path[0], C.Stay(h.s.rings[0], path[1]), sc);
      h' := Reads(p, g, sc, tid, path[1..]);
    }
  }

  /** A thread outside the rings loads the queue's head pointer. */
  lemma Loads(p: O.Traced -> bool, h: O.Traced, sc: Scene, tid: nat, l: C.Local, l': C.Local) returns (h': O.Traced)
    requires Closed(p) && At(p, h, sc, tid, l)
    requires || (l.DeqQuick? && l' == C.QuickTail(0, l.reload)) || (l == C.DeqHead && l' == C.DeqFaa(0))
             || (l.QuickLoad? && l' == C.QuickHead(0, l.first, l.tail, true))
    ensures At(p, h', sc, tid, l')
  {
    h' := Load(p, h, tid, C.CallEnqueue(0));
  }

  /** The next thread starts. */
  lemma Starts(p: O.Traced -> bool, h: O.Traced, sc: Scene, u: nat, l: C.Local, tid: nat, input: C.Input)
    returns (h': O.Traced)
    requires Closed(p) && At(p, h, sc, u, l) && u < tid && (tid == 5 ==> u == 4 && l == C.DeqSwing(0, 1) && sc.puts == 2)
    ensures At(p, h', sc, tid, match input case CallEnqueue(v) => C.EnqNext(v, 0, 0) case CallDequeue(r) => C.DeqQuick(r))
  {
    h' := Load(p, h, tid, input);
  }

  const UNREAD: C.Tail := C.Tail(0, false)
  const SHUT: C.Tail := C.Tail(2, true)

  // The first ring before and after the fetch-and-add of thread 1, with 8 in it, full, closed, emptied and used up.

  const FRESH: Scene := Scene(C.Cell(None, 0, false), 0, UNREAD, 1, 0)
  const CLAIMED: Scene := Scene(C.Cell(None, 0, false), 0, C.Tail(1, false), 1, 0)
  const HOLDING: Scene := Scene(C.Cell(Some(8), 0, false), 0, C.Tail(1, false), 1, 1)
  const FULL: Scene := Scene(C.Cell(Some(8), 0, false), 0, C.Tail(2, false), 1, 1)
  const CLOSED: Scene := Scene(C.Cell(Some(8), 0, false), 0, SHUT, 2, 2)
  const EMPTIED: Scene := Scene(C.Cell(None, 1, false), 1, SHUT, 2, 2)
  const USED_UP: Scene := Scene(C.Cell(None, 2, false), 2, SHUT, 2, 2)

  /** A fetch-and-add on the tail, or on the head. */
  lemma Claims(p: O.Traced -> bool, h: O.Traced, sc: Scene, tid: nat, v: C.Value) returns (h': O.Traced)
    requires Closed(p) && At(p, h, sc, tid, C.EnqFaa(v, 0, 0)) && !sc.tail.closed
    ensures At(p, h', sc.(tail := C.Tail(sc.tail.index + 1, false)), tid, C.EnqIdx(v, 0, 0, sc.tail.index))
  {
    h' := Moves(p, h, sc, tid, C.EnqFaa(v, 0, 0), C.Stay(C.FaaTail(h.s.rings[0], tid), C.EnqIdx(v, 0, 0, sc.tail.index)),
                sc.(tail := C.Tail(sc.tail.index + 1, false)));
  }

  lemma TakesTicket(p: O.Traced -> bool, h: O.Traced, sc: Scene, tid: nat) returns (h': O.Traced)
    requires Closed(p) && At(p, h, sc, tid, C.DeqFaa(0))
    ensures At(p, h', sc.(head := sc.head + 1), tid, C.DeqIdx(0, sc.head, 0, UNREAD))
  {
    h' := Moves(p, h, sc, tid, C.DeqFaa(0), C.Stay(C.FaaHead(h.s.rings[0], tid), C.DeqIdx(0, sc.head, 0, UNREAD)),
                sc.(head := sc.head + 1));
  }

  // Thread 1 enqueues 8.

  lemma Stores(p: O.Traced -> bool, h: O.Traced) returns (h': O.Traced)
    requires Closed(p) && At(p, h, CLAIMED, 1, C.EnqCas(8, 0, 0, 0, 0, false))
    ensures At(p, h', HOLDING, 1, C.Idle)
  {
    h' := Act(p, h, 1, C.Move(C.Store(h.s.rings[0], 0, 8), C.Idle, [C.Event(0, 0, 8)], []));
  }

  lemma EnqueueReads()
    ensures Path(FRESH, 1, [C.EnqNext(8, 0, 0), C.EnqFaa(8, 0, 0)])
    ensures Path(CLAIMED, 1, [C.EnqIdx(8, 0, 0, 0), C.EnqVal(8, 0, 0, 0, 0, false), C.EnqCas(8, 0, 0, 0, 0, false)])
  {
  }

  lemma Begins(p: O.Traced -> bool) returns (h: O.Traced)
    requires Closed(p)
    ensures At(p, h, FRESH, 0, C.Idle)
  {
    h := O.Traced(C.Init(1), map[], []);
  }

  lemma Enqueue(p: O.Traced -> bool) returns (h: O.Traced)
    requires Closed(p)
    ensures At(p, h, HOLDING, 1, C.Idle)
  {
    EnqueueReads();
    h := Begins(p);
    h := Starts(p, h, FRESH, 0, C.Idle, 1, C.CallEnqueue(8));
    h := Reads(p, h, FRESH, 1, [C.EnqNext(8, 0, 0), C.EnqFaa(8, 0, 0)]);
    h := Claims(p, h, FRESH, 1, 8);
    h := Reads(p, h, CLAIMED, 1, [C.EnqIdx(8, 0, 0, 0), C.EnqVal(8, 0, 0, 0, 0, false), C.EnqCas(8, 0, 0, 0, 0, false)]);
    h := Stores(p, h);
  }

  // Thread 2 finds the ring full, closes it and links another with 9 in it.

  lemma GivesUp(p: O.Traced -> bool, h: O.Traced) returns (h': O.Traced)
    requires Closed(p) && At(p, h, FULL, 2, C.EnqVal(9, 0, 0, 1, 0, false))
    ensures At(p, h', FULL, 2, C.EnqFull(9, 0, 0, 1))
  {
    h' := Moves(p, h, FULL, 2, C.EnqVal(9, 0, 0, 1, 0, false),
                C.Stay(C.Abandon(h.s.rings[0], 1), C.EnqFull(9, 0, 0, 1)), FULL);
  }

  lemma Closes(p: O.Traced -> bool, h: O.Traced) returns (h': O.Traced)
    requires Closed(p) && At(p, h, FULL, 2, C.EnqClose(9, 0, 1, 1))
    ensures At(p, h', FULL.(tail := SHUT), 2, C.EnqLink(9, 0, 1))
  {
    h' := Moves(p, h, FULL, 2, C.EnqClose(9, 0, 1, 1), C.Stay(C.Close(h.s.rings[0]), C.EnqLink(9, 0, 1)),
                FULL.(tail := SHUT));
  }

  lemma Links(p: O.Traced -> bool, h: O.Traced) returns (h': O.Traced)
    requires Closed(p) && At(p, h, FULL.(tail := SHUT), 2, C.EnqLink(9, 0, 1))
    ensures At(p, h', CLOSED, 2, C.Idle)
  {
    h' := O.TracedStep(h, 1, 2, C.CallEnqueue(0));
  }

  lemma FullReads()
    ensures Path(HOLDING, 2, [C.EnqNext(9, 0, 0), C.EnqFaa(9, 0, 0)])
    ensures Path(FULL, 2, [C.EnqIdx(9, 0, 0, 1), C.EnqVal(9, 0, 0, 1, 0, false)])
    ensures Path(FULL, 2, [C.EnqFull(9, 0, 0, 1), C.EnqClose(9, 0, 1, 1)])
  {
  }

  lemma EnqueueBehind(p: O.Traced -> bool) returns (h: O.Traced)
    requires Closed(p)
    ensures At(p, h, CLOSED, 2, C.Idle)
  {
    FullReads();
    h := Enqueue(p);
    h := Starts(p, h, HOLDING, 1, C.Idle, 2, C.CallEnqueue(9));
    h := Reads(p, h, HOLDING, 2, [C.EnqNext(9, 0, 0), C.EnqFaa(9, 0, 0)]);
    h := Claims(p, h, HOLDING, 2, 9);
    h := Reads(p, h, FULL, 2, [C.EnqIdx(9, 0, 0, 1), C.EnqVal(9, 0, 0, 1, 0, false)]);
    h := GivesUp(p, h);
    h := Reads(p, h, FULL, 2, [C.EnqFull(9, 0, 0, 1), C.EnqClose(9, 0, 1, 1)]);
    h := Closes(p, h);
    h := Links(p, h);
  }

  // Thread 3 takes 8.

  lemma TestReads(sc: Scene, tid: nat)
    requires sc.n == 2 && sc.tail == SHUT && sc.head < 2
    ensures Path(sc, tid, [C.QuickTail(0, false), C.QuickHead(0, 0, 2, false), C.DeqHead])
  {
  }

  /** The quick test lets a dequeue through. */
  lemma PassesTest(p: O.Traced -> bool, h: O.Traced, sc: Scene, u: nat, tid: nat) returns (h': O.Traced)
    requires Closed(p) && At(p, h, sc, u, C.Idle) && sc.n == 2 && sc.tail == SHUT && sc.head < 2 && u < tid < 5
    ensures At(p, h', sc.(head := sc.head + 1), tid, C.DeqIdx(0, sc.head, 0, UNREAD))
  {
    TestReads(sc, tid);
    h' := Starts(p, h, sc, u, C.Idle, tid, C.CallDequeue(false));
    h' := Loads(p, h', sc, tid, C.DeqQuick(false), C.QuickTail(0, false));
    h' := Reads(p, h', sc, tid, [C.QuickTail(0, false), C.QuickHead(0, 0, 2, false), C.DeqHead]);
    h' := GoesOn(p, h', sc, tid);
  }

  lemma GoesOn(p: O.Traced -> bool, h: O.Traced, sc: Scene, tid: nat) returns (h': O.Traced)
    requires Closed(p) && At(p, h, sc, tid, C.DeqHead)
    ensures At(p, h', sc.(head := sc.head + 1), tid, C.DeqIdx(0, sc.head, 0, UNREAD))
  {
    h' := Loads(p, h, sc, tid, C.DeqHead, C.DeqFaa(0));
    h' := TakesTicket(p, h', sc, tid);
  }

  lemma Takes(p: O.Traced -> bool, h: O.Traced) returns (h': O.Traced)
    requires Closed(p) && At(p, h, CLOSED.(head := 1), 3, C.DeqTake(0, 0, 0, UNREAD, 0, false, 8))
    ensures At(p, h', EMPTIED, 3, C.Idle)
  {
    h' := Moves(p, h, CLOSED.(head := 1), 3, C.DeqTake(0, 0, 0, UNREAD, 0, false, 8),
                C.Move(C.Take(h.s.rings[0], 0, false, 8), C.Idle, [], [C.Event(0, 0, 8)]), EMPTIED);
  }

  function TakePath(): seq<C.Local> {
    [C.DeqIdx(0, 0, 0, UNREAD), C.DeqVal(0, 0, 0, UNREAD, 0, false), C.DeqTake(0, 0, 0, UNREAD, 0, false, 8)]
  }

  lemma TakeReads()
    ensures Path(CLOSED.(head := 1), 3, TakePath())
  {
  }

  lemma Dequeue(p: O.Traced -> bool) returns (h: O.Traced)
    requires Closed(p)
    ensures At(p, h, EMPTIED, 3, C.Idle)
  {
    TakeReads();
    h := EnqueueBehind(p);
    h := PassesTest(p, h, CLOSED, 2, 3);
    h := Reads(p, h, CLOSED.(head := 1), 3, TakePath());
    h := Takes(p, h);
  }

  // Thread 4 finds the ring used up and is about to move the queue's head pointer on.

  function SkipPath(): seq<C.Local> {
    [C.DeqIdx(0, 1, 0, UNREAD), C.DeqVal(0, 1, 0, UNREAD, 1, false), C.DeqTail(0, 1, 0, UNREAD, 1, false),
     C.DeqSkip(0, 1, 0, SHUT, 1, false)]
  }

  lemma SkipReads()
    ensures Path(EMPTIED.(head := 2), 4, SkipPath())
  {
  }

  lemma Skips(p: O.Traced -> bool, h: O.Traced) returns (h': O.Traced)
    requires Closed(p) && At(p, h, EMPTIED.(head := 2), 4, C.DeqSkip(0, 1, 0, SHUT, 1, false))
    ensures At(p, h', USED_UP, 4, C.DeqCheck(0, 1))
  {
    h' := Moves(p, h, EMPTIED.(head := 2), 4, C.DeqSkip(0, 1, 0, SHUT, 1, false),
                C.Stay(C.SkipEmpty(h.s.rings[0], 1, false), C.DeqCheck(0, 1)), USED_UP);
  }

  function FixPath(): seq<C.Local> {
    [C.DeqCheck(0, 1), C.FixTail(0, 1), C.FixHead(0, 1, SHUT)]
  }

  function FixedPath(): seq<C.Local> {
    [C.FixHead(0, 1, SHUT), C.FixAgain(0, 1, SHUT, 2), C.DeqNext(0, 1)]
  }

  function SwingPath(): seq<C.Local> {
    [C.DeqNext(0, 1), C.DeqCheck2(0, 1), C.DeqSwing(0, 1)]
  }

  lemma FixedReads()
    ensures Path(USED_UP, 4, FixedPath())
  {
  }

  lemma FixReads()
    ensures Path(USED_UP, 4, FixPath())
  {
  }

  lemma SwingReads()
    ensures Path(USED_UP, 4, SwingPath())
  {
  }

  lemma FindsUsedUp(p: O.Traced -> bool) returns (h: O.Traced)
    requires Closed(p)
    ensures At(p, h, USED_UP, 4, C.DeqSwing(0, 1))
  {
    SkipReads();
    h := Dequeue(p);
    h := PassesTest(p, h, EMPTIED, 3, 4);
    h := Reads(p, h, EMPTIED.(head := 2), 4, SkipPath());
    h := Skips(p, h);
    h := Repairs(p, h);
  }

  lemma Repairs(p: O.Traced -> bool, h: O.Traced) returns (h': O.Traced)
    requires Closed(p) && At(p, h, USED_UP, 4, C.DeqCheck(0, 1))
    ensures At(p, h', USED_UP, 4, C.DeqSwing(0, 1))
  {
    FixReads();
    FixedReads();
    SwingReads();
    h' := Reads(p, h, USED_UP, 4, FixPath());
    h' := Reads(p, h', USED_UP, 4, FixedPath());
    h' := Reads(p, h', USED_UP, 4, SwingPath());
  }

  // Thread 5 reads tail and head of the first ring, loading the pointer each time.

  lemma HalfReads()
    ensures Path(USED_UP, 5, [C.QuickTail(0, true), C.QuickLoad(0, 2)])
    ensures Path(USED_UP, 5, [C.QuickHead(0, 0, 2, true), C.QuickLast(0)])
  {
  }

  lemma HalfTests(p: O.Traced -> bool) returns (h: O.Traced)
    requires Closed(p)
    ensures At(p, h, USED_UP, 5, C.QuickLast(0))
  {
    HalfReads();
    h := FindsUsedUp(p);
    h := Starts(p, h, USED_UP, 4, C.DeqSwing(0, 1), 5, C.CallDequeue(true));
    h := Loads(p, h, USED_UP, 5, C.DeqQuick(true), C.QuickTail(0, true));
    h := Reads(p, h, USED_UP, 5, [C.QuickTail(0, true), C.QuickLoad(0, 2)]);
    h := Loads(p, h, USED_UP, 5, C.QuickLoad(0, 2), C.QuickHead(0, 0, 2, true));
    h := Reads(p, h, USED_UP, 5, [C.QuickHead(0, 0, 2, true), C.QuickLast(0)]);
  }

  /** Thread 4 moves the pointer, and thread 5 loads it for the last time. */
  lemma LastLoad(p: O.Traced -> bool) returns (h: O.Traced)
    requires Closed(p)
    ensures p(h) && C.LocalOf(h.s, 5) == C.QuickNext(1, 0) && O.CallOf(h, 5) == 2
    ensures |h.s.rings| == |h.s.puts| == 2 && h.s.rings[1] == C.SoloRing(1, 9) && h.s.puts[1] == C.Event(1, 0, 9)
    ensures forall k :: 0 <= k < |h.s.gets| ==> h.s.gets[k].ring == 0
  {
    h := HalfTests(p);
    h := O.TracedStep(h, 1, 4, C.CallEnqueue(0));
    h := Load(p, h, 5, C.CallEnqueue(0));
  }

  // ----- Main result -----

  lemma EndsWithNothing(s: C.State, input: C.Input)
    requires C.WellFormed(s, 1) && C.LocalOf(s, 5) == C.QuickNext(1, 0) && |s.rings| == 2
    ensures E.ReturnsNothing(s, C.Step(s, 1, 5, input), 5)
    ensures C.Step(s, 1, 5, input).gets == s.gets && C.Step(s, 1, 5, input).rings == s.rings
  {
  }

  /** Nobody stands at a cell of a ring from which nothing was taken yet. */
  lemma NobodyStands(s: C.State, u: nat)
    requires C.Inv(s, 1) && |s.rings| == 2 && s.rings[1].holders == map[]
    ensures !C.StandsAt(s.threads, u, 1, 0)
  {
    assert u in s.threads ==> C.ThreadOk(u, s.threads[u], s.rings);
  }

  /** If the program loads the head pointer each time, there is a run in which a dequeue returns nothing although an
      enqueue that completed before it began has left its value in a cell where nobody stands. */
  lemma ReloadingMisses() returns (schedule: C.Schedule)
    ensures var h := O.TracedReached(1, schedule);
      && C.WellFormed(h.s, 1)
      && var t := C.Step(h.s, 1, 5, C.CallEnqueue(0));
         && E.ReturnsNothing(h.s, t, 5) && O.CallOf(h, 5) == |h.s.puts| == 2
         && h.s.puts[1] !in t.gets && forall u :: !C.StandsAt(t.threads, u, h.s.puts[1].ring, h.s.puts[1].ticket)
  {
    ReachableClosed();
    var h := LastLoad(h => Reachable(h));
    schedule :| h == O.TracedReached(1, schedule);
    O.TracedReachedInv(1, schedule);
    C.InvWellFormed(h.s, 1);
    EndsWithNothing(h.s, C.CallEnqueue(0));
    C.StepKeepsInv(h.s, 1, 5, C.CallEnqueue(0));
    forall u ensures !C.StandsAt(C.Step(h.s, 1, 5, C.CallEnqueue(0)).threads, u, 1, 0) {
      NobodyStands(C.Step(h.s, 1, 5, C.CallEnqueue(0)), u);
    }
  }
}
