/** What a call of the lock-free queue does by the time it returns: an enqueue puts its own value, once, and a dequeue
    returns one value that it took, or none. */
module LcrqCalls {
  import C = LcrqConcurrent
  import O = LcrqOrder

  predicate InDequeue(l: C.Local) {
    !l.Idle? && !C.IsEnqueue(l)
  }

  /** The value that a thread has yet to put. */
  function Pending(l: C.Local): seq<C.Value> {
    if C.IsEnqueue(l) then [l.v] else []
  }

  // ----- One access -----

  /** What an access adds to a log, if anything. */
  function Added(log: seq<C.Event>, log': seq<C.Event>): seq<C.Value> {
    if |log| < |log'| then [log'[|log|].value] else []
  }

  /** The value of the enqueue that an access calls, if it calls one. */
  function Called(l: C.Local, input: C.Input): seq<C.Value> {
    if l.Idle? && input.CallEnqueue? then [input.v] else []
  }

  function CalledDequeue(l: C.Local, input: C.Input): nat {
    if l.Idle? && input.CallDequeue? then 1 else 0
  }

  function Busy(l: C.Local): nat {
    if InDequeue(l) then 1 else 0
  }

  /** What an access makes a dequeue return, if it makes it return. */
  function Returned(l: C.Local, l': C.Local, s: C.State, t: C.State): seq<seq<C.Value>> {
    if InDequeue(l) && l'.Idle? then [Added(s.gets, t.gets)] else []
  }

  function Joined(results: seq<seq<C.Value>>): seq<C.Value> {
    if results == [] then [] else results[0] + Joined(results[1..])
  }

  /** Between its call and its return an enqueue keeps its value, and it puts the value as it returns; a dequeue takes a
      value only as it returns. */
  ghost predicate Obeys(l: C.Local, l': C.Local, s: C.State, t: C.State, input: C.Input) {
    && |t.puts| <= |s.puts| + 1 && |t.gets| <= |s.gets| + 1
    && Pending(l) + Called(l, input) == Added(s.puts, t.puts) + Pending(l')
    && Busy(l) + CalledDequeue(l, input) == |Returned(l, l', s, t)| + Busy(l')
    && Joined(Returned(l, l', s, t)) == Added(s.gets, t.gets)
  }

  lemma EnqMoveObeys(l: C.Local, r: C.Ring, last: bool, tid: nat)
    requires C.IsEnqueue(l) && C.WithinRing(l) && |r.cells| > 0
    ensures var m := C.EnqMove(l, r, last, tid);
      && m.gets == []
      && ((m.local.Idle? && |m.puts| == 1 && m.puts[0].value == l.v)
          || (m.puts == [] && C.IsEnqueue(m.local) && m.local.v == l.v))
  {
  }

  lemma DeqMoveObeys(l: C.Local, r: C.Ring, last: bool, tid: nat)
    requires !C.IsEnqueue(l) && C.WithinRing(l) && |r.cells| > 0
    ensures var m := C.DeqMove(l, r, last, tid);
      m.puts == [] && !C.IsEnqueue(m.local) && |m.gets| <= 1 && (m.gets == [] || m.local.Idle?)
  {
  }

  lemma WithinObeys(s: C.State, size: nat, tid: nat, input: C.Input, m: C.Move)
    requires var l := C.LocalOf(s, tid);
      && C.WithinRing(l) && l.ring < |s.rings| && |s.rings[l.ring].cells| > 0
      && m == C.MoveOf(l, s.rings[l.ring], l.ring + 1 == |s.rings|, tid)
    ensures var (l, t) := (C.LocalOf(s, tid), C.Apply(s, tid, C.LocalOf(s, tid).ring, m));
      Obeys(l, C.LocalOf(t, tid), s, t, input)
  {
    var l := C.LocalOf(s, tid);
    var (r, last) := (s.rings[l.ring], l.ring + 1 == |s.rings|);
    if C.IsEnqueue(l) { EnqMoveObeys(l, r, last, tid); } else { DeqMoveObeys(l, r, last, tid); }
  }

  lemma StepObeys(s: C.State, size: nat, tid: nat, input: C.Input)
    requires C.WellFormed(s, size)
    ensures var t := C.Step(s, size, tid, input); Obeys(C.LocalOf(s, tid), C.LocalOf(t, tid), s, t, input)
  {
    var l := C.LocalOf(s, tid);
    if C.WithinRing(l) {
      assert tid in s.threads && C.InRange(l, |s.rings|);
      C.StepWithinRing(s, size, tid, input);
      WithinObeys(s, size, tid, input, C.MoveOf(l, s.rings[l.ring], l.ring + 1 == |s.rings|, tid));
    } else {
      OutsideObeys(s, size, tid, input);
    }
  }

  lemma OutsideObeys(s: C.State, size: nat, tid: nat, input: C.Input)
    requires C.WellFormed(s, size) && !C.WithinRing(C.LocalOf(s, tid))
    ensures var t := C.Step(s, size, tid, input); Obeys(C.LocalOf(s, tid), C.LocalOf(t, tid), s, t, input)
  {
  }

  // ----- Runs -----

  /** The values of the enqueues that a thread calls in a run, in order. */
  ghost function EnqueueCalls(s: C.State, size: nat, schedule: C.Schedule, tid: nat): seq<C.Value>
    decreases |schedule|
  {
    if schedule == [] || !C.WellFormed(s, size) then []
    else
      var (u, input) := schedule[0];
      (if u == tid then Called(C.LocalOf(s, tid), input) else [])
      + EnqueueCalls(C.Step(s, size, u, input), size, schedule[1..], tid)
  }

  /** The values that the thread's accesses put. */
  ghost function PutBy(s: C.State, size: nat, schedule: C.Schedule, tid: nat): seq<C.Value>
    decreases |schedule|
  {
    if schedule == [] || !C.WellFormed(s, size) then []
    else
      var (u, input) := schedule[0];
      var t := C.Step(s, size, u, input);
      (if u == tid then Added(s.puts, t.puts) else []) + PutBy(t, size, schedule[1..], tid)
  }

  ghost function DequeueCalls(s: C.State, size: nat, schedule: C.Schedule, tid: nat): nat
    decreases |schedule|
  {
    if schedule == [] || !C.WellFormed(s, size) then 0
    else
      var (u, input) := schedule[0];
      (if u == tid then CalledDequeue(C.LocalOf(s, tid), input) else 0)
      + DequeueCalls(C.Step(s, size, u, input), size, schedule[1..], tid)
  }

  /** What the thread's dequeues return, in order: each a value, or nothing. */
  ghost function Results(s: C.State, size: nat, schedule: C.Schedule, tid: nat): seq<seq<C.Value>>
    decreases |schedule|
  {
    if schedule == [] || !C.WellFormed(s, size) then []
    else
      var (u, input) := schedule[0];
      var t := C.Step(s, size, u, input);
      (if u == tid then Returned(C.LocalOf(s, tid), C.LocalOf(t, tid), s, t) else [])
      + Results(t, size, schedule[1..], tid)
  }

  /** The values that the thread's accesses take. */
  ghost function TakenBy(s: C.State, size: nat, schedule: C.Schedule, tid: nat): seq<C.Value>
    decreases |schedule|
  {
    if schedule == [] || !C.WellFormed(s, size) then []
    else
      var (u, input) := schedule[0];
      var t := C.Step(s, size, u, input);
      (if u == tid then Added(s.gets, t.gets) else []) + TakenBy(t, size, schedule[1..], tid)
  }

  lemma Regroup<T>(a: seq<T>, b: seq<T>, c: seq<T>, d: seq<T>, e: seq<T>, f: seq<T>, g: seq<T>)
    requires a + b == c + d && d + e == f + g
    ensures a + (b + e) == (c + f) + g
  {
    assert a + (b + e) == (a + b) + e;
    assert (c + d) + e == c + (d + e);
  }

  lemma {:induction false} RunPutsCalled(s: C.State, size: nat, schedule: C.Schedule, tid: nat)
    ensures Pending(C.LocalOf(s, tid)) + EnqueueCalls(s, size, schedule, tid) ==
      PutBy(s, size, schedule, tid) + Pending(C.LocalOf(C.Run(s, size, schedule), tid))
    decreases |schedule|
  {
    if schedule != [] && C.WellFormed(s, size) {
      var (u, input) := schedule[0];
      var t := C.Step(s, size, u, input);
      var (l, l') := (C.LocalOf(s, tid), C.LocalOf(t, tid));
      RunPutsCalled(t, size, schedule[1..], tid);
      if u == tid { StepObeys(s, size, tid, input); } else { O.OtherThreads(s, size, u, input, tid); }
      Regroup(Pending(l), if u == tid then Called(l, input) else [], if u == tid then Added(s.puts, t.puts) else [],
              Pending(l'), EnqueueCalls(t, size, schedule[1..], tid), PutBy(t, size, schedule[1..], tid),
              Pending(C.LocalOf(C.Run(t, size, schedule[1..]), tid)));
    }
  }

  lemma JoinedOne(first: seq<seq<C.Value>>, rest: seq<seq<C.Value>>)
    requires |first| <= 1
    ensures Joined(first + rest) == Joined(first) + Joined(rest)
  {
    if first == [] {
      assert first + rest == rest;
    } else {
      assert (first + rest)[1..] == rest && first[1..] == [];
    }
  }

  lemma {:induction false} RunReturnsTaken(s: C.State, size: nat, schedule: C.Schedule, tid: nat)
    ensures Busy(C.LocalOf(s, tid)) + DequeueCalls(s, size, schedule, tid) ==
      |Results(s, size, schedule, tid)| + Busy(C.LocalOf(C.Run(s, size, schedule), tid))
    ensures Joined(Results(s, size, schedule, tid)) == TakenBy(s, size, schedule, tid)
    decreases |schedule|
  {
    if schedule != [] && C.WellFormed(s, size) {
      var (u, input) := schedule[0];
      var t := C.Step(s, size, u, input);
      RunReturnsTaken(t, size, schedule[1..], tid);
      if u == tid {
        StepObeys(s, size, tid, input);
        JoinedOne(Returned(C.LocalOf(s, tid), C.LocalOf(t, tid), s, t), Results(t, size, schedule[1..], tid));
      } else {
        O.OtherThreads(s, size, u, input, tid);
        JoinedOne([], Results(t, size, schedule[1..], tid));
      }
    }
  }

  // ----- Main results -----

  /** In every run, the values a thread has put are those of the enqueues it called, in that order, each once; the last is
      missing exactly if that enqueue has not returned. */
  lemma EnqueuesPutOnce(size: nat, schedule: C.Schedule, tid: nat)
    requires size > 0
    ensures EnqueueCalls(C.Init(size), size, schedule, tid) ==
      PutBy(C.Init(size), size, schedule, tid) + Pending(C.LocalOf(C.Reached(size, schedule), tid))
  {
    RunPutsCalled(C.Init(size), size, schedule, tid);
  }

  /** In every run, each dequeue that a thread called has one result, unless it has not returned; and the results hold
      exactly the values that the thread took. */
  lemma DequeuesReturnTaken(size: nat, schedule: C.Schedule, tid: nat)
    requires size > 0
    ensures var results := Results(C.Init(size), size, schedule, tid);
      && DequeueCalls(C.Init(size), size, schedule, tid) ==
           |results| + Busy(C.LocalOf(C.Reached(size, schedule), tid))
      && Joined(results) == TakenBy(C.Init(size), size, schedule, tid)
  {
    RunReturnsTaken(C.Init(size), size, schedule, tid);
  }
}
