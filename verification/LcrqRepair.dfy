/** The repair of the lock-free queue's rings: a dequeue that found its ring used up goes on only when the ring's tail is
    past its ticket again, or the ring is closed. */
module LcrqRepair {
  import C = LcrqConcurrent
  import O = LcrqOrder

  predicate PastRepair(l: C.Local) {
    l.DeqNext? || l.DeqCheck2? || l.DeqSwing?
  }

  predicate Repairing(l: C.Local) {
    l.FixAgain? || l.FixCas?
  }

  predicate Repaired(r: C.Ring, h: nat) {
    r.tail.closed || r.tail.index > h
  }

  ghost predicate RepairOk(l: C.Local, rings: seq<C.Ring>) {
    && (Repairing(l) ==> l.fh > l.h)
    && (PastRepair(l) ==> l.ring < |rings| && Repaired(rings[l.ring], l.h))
  }

  ghost predicate RepairInv(s: C.State) {
    forall u: nat :: RepairOk(C.LocalOf(s, u), s.rings)
  }

  // ----- Tails only grow -----

  predicate TailGrows(r: C.Ring, r': C.Ring) {
    (r.tail.closed ==> r'.tail.closed) && r.tail.index <= r'.tail.index
  }

  ghost predicate TailsGrow(rings: seq<C.Ring>, rings': seq<C.Ring>) {
    |rings| <= |rings'| && forall i :: 0 <= i < |rings| ==> TailGrows(rings[i], rings'[i])
  }

  lemma EnqTail(l: C.Local, r: C.Ring, last: bool, tid: nat)
    requires C.IsEnqueue(l) && C.WithinRing(l) && |r.cells| > 0
    ensures var m := C.EnqMove(l, r, last, tid);
      TailGrows(r, m.ring) && !Repairing(m.local) && !PastRepair(m.local)
  {
  }

  lemma DeqTail(l: C.Local, r: C.Ring, last: bool, tid: nat)
    requires !C.IsEnqueue(l) && C.WithinRing(l) && |r.cells| > 0
    requires l.FixCas? ==> !l.ft.closed && l.fh > l.ft.index
    ensures TailGrows(r, C.DeqMove(l, r, last, tid).ring)
  {
  }

  lemma DeqRepairs(l: C.Local, r: C.Ring, last: bool, tid: nat)
    requires !C.IsEnqueue(l) && C.WithinRing(l) && |r.cells| > 0 && (l.FixHead? ==> l.h < r.head)
    requires (Repairing(l) ==> l.fh > l.h) && (PastRepair(l) ==> Repaired(r, l.h))
    ensures var m := C.DeqMove(l, r, last, tid);
      && (Repairing(m.local) ==> m.local.fh > m.local.h)
      && (PastRepair(m.local) ==> m.local.ring == l.ring && Repaired(m.ring, m.local.h))
  {
  }

  // ----- Steps -----

  /** What the repair needs of the invariant. */
  ghost predicate Sound(l: C.Local, rings: seq<C.Ring>) {
    && !C.NoRing(l) && l.ring < |rings| && |rings[l.ring].cells| > 0
    && (l.FixHead? ==> l.h < rings[l.ring].head) && (l.FixCas? ==> !l.ft.closed && l.fh > l.ft.index)
  }

  lemma InvSound(s: C.State, size: nat, tid: nat)
    requires C.Inv(s, size) && !C.NoRing(C.LocalOf(s, tid))
    ensures Sound(C.LocalOf(s, tid), s.rings)
  {
    assert C.ThreadOk(tid, C.LocalOf(s, tid), s.rings);
  }

  lemma WithinRepairs(s: C.State, size: nat, tid: nat, input: C.Input)
    requires C.WellFormed(s, size) && C.WithinRing(C.LocalOf(s, tid)) && Sound(C.LocalOf(s, tid), s.rings)
    requires RepairOk(C.LocalOf(s, tid), s.rings)
    ensures var t := C.Step(s, size, tid, input); TailsGrow(s.rings, t.rings) && RepairOk(C.LocalOf(t, tid), t.rings)
  {
    var l := C.LocalOf(s, tid);
    C.StepWithinRing(s, size, tid, input);
    var (r, last) := (s.rings[l.ring], l.ring + 1 == |s.rings|);
    if C.IsEnqueue(l) {
      EnqTail(l, r, last, tid);
    } else {
      DeqTail(l, r, last, tid);
      DeqRepairs(l, r, last, tid);
    }
  }

  lemma OutsideRepairs(s: C.State, size: nat, tid: nat, input: C.Input)
    requires C.WellFormed(s, size) && !C.WithinRing(C.LocalOf(s, tid))
    ensures var t := C.Step(s, size, tid, input); TailsGrow(s.rings, t.rings) && RepairOk(C.LocalOf(t, tid), t.rings)
  {
  }

  lemma StepRepairs(s: C.State, size: nat, tid: nat, input: C.Input)
    requires C.Inv(s, size) && C.WellFormed(s, size) && RepairInv(s)
    ensures RepairInv(C.Step(s, size, tid, input))
  {
    var (t, l) := (C.Step(s, size, tid, input), C.LocalOf(s, tid));
    if C.WithinRing(l) {
      InvSound(s, size, tid);
      WithinRepairs(s, size, tid, input);
    } else {
      OutsideRepairs(s, size, tid, input);
    }
    forall u: nat ensures RepairOk(C.LocalOf(t, u), t.rings) {
      if u != tid {
        O.OtherThreads(s, size, tid, input, u);
        StillRepaired(C.LocalOf(s, u), s.rings, t.rings);
      }
    }
  }

  lemma StillRepaired(l: C.Local, rings: seq<C.Ring>, rings': seq<C.Ring>)
    requires RepairOk(l, rings) && TailsGrow(rings, rings')
    ensures RepairOk(l, rings')
  {
    if PastRepair(l) { assert TailGrows(rings[l.ring], rings'[l.ring]); }
  }

  lemma {:induction false} RunRepairs(s: C.State, size: nat, schedule: C.Schedule)
    requires C.Inv(s, size) && RepairInv(s)
    ensures RepairInv(C.Run(s, size, schedule))
    decreases |schedule|
  {
    if schedule != [] && C.WellFormed(s, size) {
      StepRepairs(s, size, schedule[0].0, schedule[0].1);
      C.StepKeepsInv(s, size, schedule[0].0, schedule[0].1);
      RunRepairs(C.Step(s, size, schedule[0].0, schedule[0].1), size, schedule[1..]);
    }
  }

  // ----- Main result -----

  /** In every run: a dequeue that is about to return nothing, or to go on to the next ring, has left the tail of its ring
      past its ticket, or the ring is closed; no enqueue will be given its ticket or an earlier one. */
  lemma RepairedTail(size: nat, schedule: C.Schedule, tid: nat)
    requires size > 0
    ensures var s := C.Reached(size, schedule);
      var l := C.LocalOf(s, tid);
      PastRepair(l) ==> l.ring < |s.rings| && (s.rings[l.ring].tail.closed || s.rings[l.ring].tail.index > l.h)
  {
    C.InitInv(size);
    RunRepairs(C.Init(size), size, schedule);
    assert RepairOk(C.LocalOf(C.Reached(size, schedule), tid), C.Reached(size, schedule).rings);
  }
}
