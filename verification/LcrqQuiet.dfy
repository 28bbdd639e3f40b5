/** The lock-free queue at rest: when no operation is under way, a dequeue that runs alone returns what a queue is to
    return. */
module LcrqQuiet {
  import C = LcrqConcurrent
  import K = LcrqCalls
  import O = LcrqOrder
  import N = LcrqEmpty
  import P = LcrqProgress

  ghost predicate Quiet(s: C.State) {
    forall u: nat :: C.LocalOf(s, u).Idle?
  }

  // ----- One thread alone, with the record of calls -----

  ghost function AloneTraced(h: O.Traced, size: nat, tid: nat, input: C.Input, n: nat): (t: O.Traced)
    ensures t.s == P.Alone(h.s, size, tid, input, n)
  {
    if n == 0 then h
    else
      var u := AloneTraced(h, size, tid, input, n - 1);
      if C.WellFormed(u.s, size) then O.TracedStep(u, size, tid, input) else u
  }

  function Turns(tid: nat, input: C.Input, n: nat): C.Schedule {
    if n == 0 then [] else Turns(tid, input, n - 1) + [(tid, input)]
  }

  lemma AnotherTurn(h: O.Traced, a: O.Traced, size: nat, tid: nat, input: C.Input, turns: C.Schedule)
    requires C.Inv(h.s, size) && a == O.TracedRun(h, size, turns) && C.WellFormed(a.s, size)
    ensures O.TracedRun(h, size, turns + [(tid, input)]) == O.TracedStep(a, size, tid, input)
  {
    O.TracedConcat(h, size, turns, [(tid, input)]);
    O.OneTurn(a, size, tid, input);
  }

  lemma AloneOne(h: O.Traced, a: O.Traced, size: nat, tid: nat, input: C.Input, n: nat)
    requires C.Inv(h.s, size) && n > 0 && a == AloneTraced(h, size, tid, input, n - 1)
    ensures C.WellFormed(a.s, size) && AloneTraced(h, size, tid, input, n) == O.TracedStep(a, size, tid, input)
  {
    P.AloneWellFormed(h.s, size, tid, input, n - 1);
  }

  lemma {:induction false} AloneRun(h: O.Traced, size: nat, tid: nat, input: C.Input, n: nat, turns: C.Schedule)
    requires C.Inv(h.s, size) && turns == Turns(tid, input, n)
    ensures AloneTraced(h, size, tid, input, n) == O.TracedRun(h, size, turns)
    decreases n
  {
    if n > 0 {
      var before := Turns(tid, input, n - 1);
      AloneRun(h, size, tid, input, n - 1, before);
      var a := AloneTraced(h, size, tid, input, n - 1);
      AloneOne(h, a, size, tid, input, n);
      AnotherTurn(h, a, size, tid, input, before);
    }
  }

  /** The state is one that a run reaches. */
  lemma AloneReached(size: nat, schedule: C.Schedule, tid: nat, input: C.Input, n: nat, all: C.Schedule)
    requires size > 0 && C.Inv(O.TracedReached(size, schedule).s, size) && all == schedule + Turns(tid, input, n)
    ensures AloneTraced(O.TracedReached(size, schedule), size, tid, input, n) == O.TracedReached(size, all)
  {
    C.InitInv(size);
    O.TracedConcat(O.Traced(C.Init(size), map[], []), size, schedule, Turns(tid, input, n));
    AloneRun(O.TracedReached(size, schedule), size, tid, input, n, Turns(tid, input, n));
  }

  // ----- A dequeue under way -----

  /** The quick test sees the queue's head pointer as it is. */
  predicate Unmoved(l: C.Local, qhead: nat) {
    && (l.QuickTail? || l.QuickHead? ==> l.ring == qhead)
    && (l.QuickLoad? || l.QuickHead? || l.QuickLast? ==> l.first == qhead)
    && (l.QuickNext? ==> l.ring == l.first)
  }

  lemma StepUnmoved(s: C.State, size: nat, tid: nat, input: C.Input)
    requires C.WellFormed(s, size) && Unmoved(C.LocalOf(s, tid), s.qhead)
    ensures var t := C.Step(s, size, tid, input); Unmoved(C.LocalOf(t, tid), t.qhead)
  {
    N.StepArrives(s, size, tid, input);
  }

  /** Nothing but the dequeue of one thread has gone on since h. */
  ghost predicate Since(h: O.Traced, h': O.Traced, tid: nat) {
    && h'.s.puts == h.s.puts && h'.s.gets == h.s.gets && h'.began == h.began
    && K.InDequeue(C.LocalOf(h'.s, tid)) && O.CallOf(h', tid) == |h.s.puts| && Unmoved(C.LocalOf(h'.s, tid), h'.s.qhead)
    && forall u: nat :: u != tid ==> C.LocalOf(h'.s, u).Idle?
  }

  lemma StepSince(h: O.Traced, h': O.Traced, size: nat, tid: nat, input: C.Input)
    requires C.Inv(h'.s, size) && C.WellFormed(h'.s, size) && input.CallDequeue? && |h'.began| == |h'.s.puts|
    requires (h' == h && Quiet(h.s)) || Since(h, h', tid)
    requires !C.LocalOf(C.Step(h'.s, size, tid, input), tid).Idle?
    ensures Since(h, O.TracedStep(h', size, tid, input), tid)
  {
    K.StepObeys(h'.s, size, tid, input);
    C.StepExtends(h'.s, size, tid, input);
    StepUnmoved(h'.s, size, tid, input);
    forall u: nat | u != tid ensures C.LocalOf(C.Step(h'.s, size, tid, input), u).Idle? {
      O.OtherThreads(h'.s, size, tid, input, u);
    }
  }

  lemma NextSince(h: O.Traced, h': O.Traced, u: O.Traced, size: nat, tid: nat, input: C.Input)
    requires C.Inv(h'.s, size) && C.WellFormed(h'.s, size) && input.CallDequeue? && |h'.began| == |h'.s.puts|
    requires (h' == h && Quiet(h.s)) || Since(h, h', tid)
    requires u == O.TracedStep(h', size, tid, input) && !C.LocalOf(u.s, tid).Idle?
    ensures Since(h, u, tid)
  {
    StepSince(h, h', size, tid, input);
  }

  lemma {:induction false} AloneSince(h: O.Traced, size: nat, tid: nat, input: C.Input, k: nat)
    requires C.Inv(h.s, size) && Quiet(h.s) && input.CallDequeue? && k > 0 && |h.began| == |h.s.puts|
    requires forall j :: 0 < j <= k ==> !P.IdleAfter(h.s, size, tid, input, j)
    ensures Since(h, AloneTraced(h, size, tid, input, k), tid)
  {
    var a := AloneTraced(h, size, tid, input, k - 1);
    if k > 1 { AloneSince(h, size, tid, input, k - 1); }
    assert C.WellFormed(a.s, size) && C.Inv(a.s, size) by { P.AloneInv(h.s, size, tid, input, k - 1); }
    AloneOne(h, a, size, tid, input, k);
    assert !P.IdleAfter(h.s, size, tid, input, k);
    NextSince(h, a, AloneTraced(h, size, tid, input, k), size, tid, input);
  }

  // ----- Main result -----

  /** What was enqueued first and not returned yet is returned; nothing only if there is nothing. */
  ghost predicate TakesOldest(h: O.Traced, t: C.State)
    requires |h.began| == |h.s.puts|
  {
    && t.puts == h.s.puts
    && if t.gets == h.s.gets then AllReturned(h.s.puts, |h.s.puts|, h.s.gets)
       else exists b :: 0 <= b < |h.s.puts| && t.gets == h.s.gets + [h.s.puts[b]] && NextOut(h, b)
  }

  ghost predicate AllReturned(puts: seq<C.Event>, n: nat, gets: seq<C.Event>) {
    n <= |puts| && forall a :: 0 <= a < n ==> puts[a] in gets
  }

  ghost predicate NextOut(h: O.Traced, b: nat)
    requires b < |h.began| == |h.s.puts|
  {
    h.s.puts[b] !in h.s.gets && AllReturned(h.s.puts, h.began[b], h.s.gets)
  }

  lemma NobodyStands(s: C.State, u: nat, i: nat, t: nat)
    requires Quiet(s)
    ensures !C.StandsAt(s.threads, u, i, t)
  {
    assert C.LocalOf(s, u).Idle?;
  }

  lemma QuietAfter(s: C.State, size: nat, tid: nat, input: C.Input)
    requires C.WellFormed(s, size) && C.LocalOf(C.Step(s, size, tid, input), tid).Idle?
    requires forall u: nat :: u != tid ==> C.LocalOf(s, u).Idle?
    ensures Quiet(C.Step(s, size, tid, input))
  {
    forall u: nat ensures C.LocalOf(C.Step(s, size, tid, input), u).Idle? {
      if u != tid { O.OtherThreads(s, size, tid, input, u); }
    }
  }

  /** A dequeue that has returned with every thread idle, in the state t of the run h'. */
  lemma NothingLeft(h: O.Traced, size: nat, before: C.Schedule, tid: nat, input: C.Input, a: nat)
    requires size > 0 && C.WellFormed(O.TracedReached(size, before).s, size)
    requires Since(h, O.TracedReached(size, before), tid) && a < |h.s.puts|
    requires var t := C.Step(O.TracedReached(size, before).s, size, tid, input); Quiet(t) && t.gets == h.s.gets
    ensures h.s.puts[a] in h.s.gets
  {
    N.EmptyHanded(size, before, tid, input, a);
    var h' := O.TracedReached(size, before);
    var t := C.Step(h'.s, size, tid, input);
    forall u ensures !C.StandsAt(t.threads, u, h'.s.puts[a].ring, h'.s.puts[a].ticket) {
      NobodyStands(t, u, h'.s.puts[a].ring, h'.s.puts[a].ticket);
    }
  }

  lemma OldestTaken(h: O.Traced, h': O.Traced, size: nat, schedule: C.Schedule, b: nat)
    requires size > 0 && h' == O.TracedReached(size, schedule) && Quiet(h'.s) && C.Inv(h'.s, size)
    requires h'.s.puts == h.s.puts && h'.began == h.began && |h.began| == |h.s.puts| && b < |h.s.puts| && h.began[b] <= b
    requires h'.s.gets == h.s.gets + [h.s.puts[b]]
    ensures NextOut(h, b)
  {
    var e := h.s.puts[b];
    assert h'.s.gets[|h.s.gets|] == e;
    forall k | 0 <= k < |h.s.gets| ensures h.s.gets[k] != e { assert h'.s.gets[k] == h.s.gets[k]; }
    forall a | 0 <= a < h.began[b] ensures h.s.puts[a] in h.s.gets {
      O.FirstOut(size, schedule, a, b);
      forall u ensures !C.StandsAt(h'.s.threads, u, h.s.puts[a].ring, h.s.puts[a].ticket) {
        NobodyStands(h'.s, u, h.s.puts[a].ring, h.s.puts[a].ticket);
      }
      assert h.s.puts[a] in h'.s.gets && h'.s.puts[a] != h'.s.puts[b];
    }
  }

  /** The access with which the dequeue returns. */
  lemma Returns(h: O.Traced, h': O.Traced, size: nat, tid: nat, input: C.Input)
    requires C.Inv(h'.s, size) && C.WellFormed(h'.s, size) && Since(h, h', tid)
    requires C.LocalOf(C.Step(h'.s, size, tid, input), tid).Idle?
    ensures var u := O.TracedStep(h', size, tid, input);
      && Quiet(u.s) && u.s.puts == h.s.puts && u.began == h.began
      && (u.s.gets == h.s.gets || (|u.s.gets| == |h.s.gets| + 1 && h.s.gets <= u.s.gets))
  {
    K.StepObeys(h'.s, size, tid, input);
    C.StepExtends(h'.s, size, tid, input);
    QuietAfter(h'.s, size, tid, input);
  }

  lemma FirstIsBusy(s: C.State, size: nat, tid: nat, input: C.Input)
    requires C.Inv(s, size) && C.LocalOf(s, tid).Idle? && input.CallDequeue?
    ensures !P.IdleAfter(s, size, tid, input, 1)
  {
    C.InvWellFormed(s, size);
    K.StepObeys(s, size, tid, input);
    assert P.Alone(s, size, tid, input, 0) == s;
  }

  lemma WasPut(s: C.State, size: nat, e: C.Event) returns (b: nat)
    requires C.Inv(s, size) && e in s.gets
    ensures b < |s.puts| && s.puts[b] == e
  {
    C.GotWasPut(s, size);
    var k :| 0 <= k < |s.gets| && s.gets[k] == e;
    b :| b < |s.puts| && s.puts[b] == e;
  }

  lemma BeganBefore(h: O.Traced, size: nat, b: nat)
    requires O.OrderInv(h, size) && b < |h.s.puts|
    ensures |h.began| == |h.s.puts| && h.began[b] <= b
  {
  }

  /** A dequeue that has taken a value: u is the state it returns in. */
  lemma ValueTaken(h: O.Traced, u: O.Traced, size: nat, schedule: C.Schedule, b: nat)
    requires size > 0 && C.Inv(u.s, size) && Quiet(u.s)
    requires u == O.TracedReached(size, schedule) && u.s.puts == h.s.puts && u.began == h.began
    requires |h.began| == |h.s.puts| && b < |h.s.puts| && h.began[b] <= b
    requires |u.s.gets| == |h.s.gets| + 1 && h.s.gets <= u.s.gets && u.s.gets[|h.s.gets|] == h.s.puts[b]
    ensures TakesOldest(h, u.s)
  {
    assert u.s.gets == h.s.gets + [h.s.puts[b]];
    OldestTaken(h, u, size, schedule, b);
    assert h.s.puts[b] in u.s.gets && u.s.gets != h.s.gets;
  }

  lemma NothingTaken(h: O.Traced, size: nat, before: C.Schedule, tid: nat, input: C.Input)
    requires size > 0 && O.OrderInv(h, size) && C.WellFormed(O.TracedReached(size, before).s, size)
    requires Since(h, O.TracedReached(size, before), tid)
    requires var t := C.Step(O.TracedReached(size, before).s, size, tid, input);
      Quiet(t) && t.gets == h.s.gets && t.puts == h.s.puts
    ensures TakesOldest(h, C.Step(O.TracedReached(size, before).s, size, tid, input))
  {
    forall a | 0 <= a < |h.s.puts| ensures h.s.puts[a] in h.s.gets { NothingLeft(h, size, before, tid, input, a); }
  }

  /** The outcome, in the state u that the dequeue returns in: one that a run reaches, by `before` and one access more. */
  lemma Outcome(h: O.Traced, h': O.Traced, u: O.Traced, size: nat, before: C.Schedule, tid: nat, input: C.Input)
    requires size > 0 && O.OrderInv(h, size) && Since(h, h', tid)
    requires h' == O.TracedReached(size, before) && C.WellFormed(h'.s, size) && C.Inv(h'.s, size)
    requires u == O.TracedStep(h', size, tid, input) && C.LocalOf(u.s, tid).Idle? && C.Inv(u.s, size)
    requires u == O.TracedReached(size, before + [(tid, input)])
    ensures TakesOldest(h, u.s)
  {
    Returns(h, h', size, tid, input);
    if u.s.gets == h.s.gets { NothingTaken(h, size, before, tid, input); }
    else {
      var b := WasPut(u.s, size, u.s.gets[|h.s.gets|]);
      BeganBefore(h, size, b);
      ValueTaken(h, u, size, before + [(tid, input)], b);
    }
  }

  lemma JustBefore(h: O.Traced, size: nat, tid: nat, input: C.Input, n: nat)
    requires C.Inv(h.s, size) && |h.began| == |h.s.puts| && Quiet(h.s) && input.CallDequeue?
    requires P.ReturnsAfter(h.s, size, tid, input, n)
    ensures n > 1 && Since(h, AloneTraced(h, size, tid, input, n - 1), tid)
  {
    FirstIsBusy(h.s, size, tid, input);
    AloneSince(h, size, tid, input, n - 1);
  }

  lemma AtReturn(h: O.Traced, u: O.Traced, size: nat, tid: nat, input: C.Input, n: nat)
    requires C.Inv(h.s, size) && P.ReturnsAfter(h.s, size, tid, input, n) && u == AloneTraced(h, size, tid, input, n)
    ensures C.LocalOf(u.s, tid).Idle? && C.Inv(u.s, size)
  {
    P.AloneInv(h.s, size, tid, input, n);
  }

  lemma LastReached(size: nat, schedule: C.Schedule, tid: nat, input: C.Input, n: nat) returns (before: C.Schedule)
    requires size > 0 && C.Inv(O.TracedReached(size, schedule).s, size) && n > 0
    ensures AloneTraced(O.TracedReached(size, schedule), size, tid, input, n - 1) == O.TracedReached(size, before)
    ensures AloneTraced(O.TracedReached(size, schedule), size, tid, input, n) ==
      O.TracedReached(size, before + [(tid, input)])
  {
    before := schedule + Turns(tid, input, n - 1);
    AloneReached(size, schedule, tid, input, n - 1, before);
    AloneReached(size, schedule, tid, input, n, before + [(tid, input)]);
  }

  lemma AloneOutcome(h: O.Traced, a: O.Traced, u: O.Traced, size: nat, before: C.Schedule,
                     tid: nat, input: C.Input, n: nat)
    requires size > 0 && O.OrderInv(h, size) && Quiet(h.s) && input.CallDequeue?
    requires P.ReturnsAfter(h.s, size, tid, input, n) && u == AloneTraced(h, size, tid, input, n)
    requires n > 1 && a == AloneTraced(h, size, tid, input, n - 1) && Since(h, a, tid)
    requires a == O.TracedReached(size, before) && u == O.TracedReached(size, before + [(tid, input)])
    ensures TakesOldest(h, u.s)
  {
    AtReturn(h, u, size, tid, input, n);
    AloneOne(h, a, size, tid, input, n);
    assert C.Inv(a.s, size) by { P.AloneInv(h.s, size, tid, input, n - 1); }
    Outcome(h, a, u, size, before, tid, input);
  }

  /** In every state that a run reaches and in which no operation is under way: a dequeue that runs alone returns.  It
      returns nothing exactly if every value enqueued has been returned, and else a value that has not been returned
      while every value whose enqueue completed before that one's began has. */
  lemma QuietDequeue(size: nat, schedule: C.Schedule, tid: nat, reload: bool)
    requires size > 0 && Quiet(C.Reached(size, schedule))
    ensures var (h, input) := (O.TracedReached(size, schedule), C.CallDequeue(reload));
      && O.OrderInv(h, size) && h.s == C.Reached(size, schedule)
      && exists n :: P.ReturnsAfter(h.s, size, tid, input, n) && TakesOldest(h, P.Alone(h.s, size, tid, input, n))
  {
    O.TracedReachedInv(size, schedule);
    var (h, input) := (O.TracedReached(size, schedule), C.CallDequeue(reload));
    P.AloneReturns(size, schedule, tid, input);
    var n: nat :| P.ReturnsAfter(h.s, size, tid, input, n);
    JustBefore(h, size, tid, input, n);
    var before := LastReached(size, schedule, tid, input, n);
    var (a, u) := (AloneTraced(h, size, tid, input, n - 1), AloneTraced(h, size, tid, input, n));
    AloneOutcome(h, a, u, size, before, tid, input, n);
  }
}
