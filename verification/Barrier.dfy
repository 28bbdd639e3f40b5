/** The dissemination barrier, run over and over by every rank on one tag. */
module Barrier {
  import E = ColEngine
  import opened Allreduce

  // ----- The schedule -----

  /** The rank d places before, and the rank d places after, on the ring of ranks. */
  function Back(size: nat, rank: nat, d: nat): (b: nat)
    requires rank < size && d <= size
    ensures b < size || d == size
  {
    if d <= rank then rank - d else rank + size - d
  }

  function Ahead(size: nat, rank: nat, d: nat): (a: nat)
    requires rank < size && d < size
    ensures a < size
  {
    if rank + d < size then rank + d else rank + d - size
  }

  lemma Remainder(x: nat, size: nat)
    requires size > 0 && x < 2 * size
    ensures x % size == if x < size then x else x - size
  {
    QuotientBelowTwo(x / size, x % size, size, x);
  }

  lemma QuotientBelowTwo(q: int, r: int, size: nat, x: nat)
    requires x == size * q + r && 0 <= r < size && x < 2 * size
    ensures q == if x < size then 0 else 1
  {
    assert size * (q + 1) == size * q + size;
    Monotone(size, 2, q);
    Monotone(size, q + 1, 0);
    Monotone(size, 1, q);
    Monotone(size, q, 0);
  }

  lemma Monotone(size: nat, a: int, b: int)
    ensures a <= b ==> size * a <= size * b
  {
  }

  /** `k` rounds use the distances 1, 2, 4, ... below `size`. */
  predicate IsRounds(size: nat, k: nat) {
    Pow2(k) >= size && (k > 0 ==> Pow2(k - 1) < size)
  }

  /** Operation 2 k sends the message of round k, operation 2 k + 1 receives it. */
  function BarrierOp(size: nat, rank: nat, c: nat): E.Op
    requires rank < size && Pow2(c / 2) < size
  {
    if c % 2 == 0 then E.Send(E.Work, Ahead(size, rank, Pow2(c / 2))) else E.Recv(E.Work, Back(size, rank, Pow2(c / 2)))
  }

  lemma {:induction false} RoundsBelow(size: nat, rounds: nat, k: nat)
    requires IsRounds(size, rounds) && k < rounds
    ensures Pow2(k) < size
  {
    if k < rounds - 1 { Pow2Grows(k, rounds - 1); }
  }

  lemma AllRoundsBelow(size: nat, rounds: nat)
    requires IsRounds(size, rounds)
    ensures forall c :: 0 <= c < 2 * rounds ==> Pow2(c / 2) < size
  {
    forall c | 0 <= c < 2 * rounds ensures Pow2(c / 2) < size { RoundsBelow(size, rounds, c / 2); }
  }

  /** The schedule of a rank. */
  function BarrierSchedule(size: nat, rounds: nat, rank: nat): (ops: seq<E.Op>)
    requires rank < size && IsRounds(size, rounds)
    ensures |ops| == 2 * rounds
    ensures forall c :: 0 <= c < |ops| ==> Pow2(c / 2) < size && ops[c] == BarrierOp(size, rank, c)
  {
    AllRoundsBelow(size, rounds);
    seq(2 * rounds, c requires 0 <= c < 2 * rounds => BarrierOp(size, rank, c))
  }

  /** The loop that builds the schedule. */
  method BuildBarrier(size: nat, rank: nat) returns (next: seq<E.Op>, ghost rounds: nat)
    requires rank < size
    ensures IsRounds(size, rounds) && next == BarrierSchedule(size, rounds, rank)
  {
    next := [];
    rounds := 0;
    var distance := 1;
    while distance < size
      invariant distance == Pow2(rounds) && |next| == 2 * rounds
      invariant rounds > 0 ==> Pow2(rounds - 1) < size
      invariant forall c :: 0 <= c < |next| ==> Pow2(c / 2) < size && next[c] == BarrierOp(size, rank, c)
      decreases size - distance
    {
      var from := (rank + size - distance) % size;
      var to := (rank + distance) % size;
      Remainder(rank + size - distance, size);
      Remainder(rank + distance, size);
      next := next + [E.Send(E.Work, to)];
      next := next + [E.Recv(E.Work, from)];
      distance := distance * 2;
      rounds := rounds + 1;
    }
  }

  /** The ranks d places after and before a rank on the ring. */
  lemma Neighbours(size: nat, rank: nat, d: nat)
    requires rank < size && 1 <= d < size
    ensures Ahead(size, rank, d) == (rank + d) % size
    ensures Back(size, rank, d) == (rank + size - d) % size
  {
    Remainder(rank + d, size);
    Remainder(rank + size - d, size);
  }

  lemma OpAt(size: nat, rounds: nat, rank: nat, c: nat)
    requires rank < size && IsRounds(size, rounds) && c < 2 * rounds
    ensures Pow2(c / 2) < size && BarrierSchedule(size, rounds, rank)[c] == BarrierOp(size, rank, c)
  {
    RoundsBelow(size, rounds, c / 2);
  }

  lemma EvenOdd(k: nat)
    ensures 2 * k / 2 == k && (2 * k + 1) / 2 == k && 2 * k % 2 == 0 && (2 * k + 1) % 2 == 1
  {
  }

  /** In round k a rank sends to the rank 2^k after it on the ring, and receives from the one 2^k before it. */
  lemma RoundExchanges(size: nat, rounds: nat, rank: nat, k: nat)
    requires rank < size && IsRounds(size, rounds) && k < rounds
    ensures Pow2(k) < size
    ensures var ops := BarrierSchedule(size, rounds, rank);
      && ops[2 * k] == E.Send(E.Work, Ahead(size, rank, Pow2(k)))
      && ops[2 * k + 1] == E.Recv(E.Work, Back(size, rank, Pow2(k)))
  {
    EvenOdd(k);
    OpAt(size, rounds, rank, 2 * k);
    OpAt(size, rounds, rank, 2 * k + 1);
  }

  // ----- Steps -----

  /** How many barriers a rank has finished, whether it is inside the next one, how much of the schedule it has issued
      there, and whether nothing it issued is pending. */
  datatype Rank = Rank(done: nat, inside: bool, cur: nat, sync: bool)

  /** `chan` counts the messages on their way from one rank to another. */
  datatype State = State(ranks: seq<Rank>, chan: map<(nat, nat), nat>)

  datatype Event = Enter(rank: nat) | Progress(rank: nat) | SendDone(rank: nat) | Deliver(rank: nat)

  datatype Ring = Ring(size: nat, rounds: nat) {
    ghost predicate Valid() {
      size >= 1 && IsRounds(size, rounds)
    }
  }

  function Chan(chan: map<(nat, nat), nat>, j: nat, i: nat): nat {
    if (j, i) in chan then chan[(j, i)] else 0
  }

  predicate Enabled(g: Ring, s: State, e: Event) {
    e.rank < |s.ranks| == g.size &&
    var r := s.ranks[e.rank];
    match e
    case Enter(_) => !r.inside
    case Progress(_) => r.inside && r.sync && (r.cur < 2 * g.rounds ==> Pow2(r.cur / 2) < g.size)
    case SendDone(_) => r.inside && !r.sync && r.cur % 2 == 1
    case Deliver(i) =>
      r.inside && !r.sync && r.cur % 2 == 0 && r.cur > 0 && Pow2(r.cur / 2 - 1) < g.size &&
      Chan(s.chan, Back(g.size, i, Pow2(r.cur / 2 - 1)), i) > 0
  }

  function Issue(g: Ring, s: State, i: nat): State
    requires Enabled(g, s, Progress(i)) && s.ranks[i].cur < 2 * g.rounds
  {
    var r := s.ranks[i];
    var ranks := s.ranks[i := r.(cur := r.cur + 1, sync := false)];
    var op := BarrierOp(g.size, i, r.cur);
    if op.Send? then State(ranks, s.chan[(i, op.to) := Chan(s.chan, i, op.to) + 1]) else State(ranks, s.chan)
  }

  function Step(g: Ring, s: State, e: Event): State
    requires Enabled(g, s, e)
  {
    var i := e.rank;
    var r := s.ranks[i];
    match e
    case Enter(_) => s.(ranks := s.ranks[i := Rank(r.done, true, 0, true)])
    case Progress(_) =>
      if r.cur >= 2 * g.rounds then s.(ranks := s.ranks[i := Rank(r.done + 1, false, 0, true)]) else Issue(g, s, i)
    case SendDone(_) => s.(ranks := s.ranks[i := r.(sync := true)])
    case Deliver(_) =>
      var j := Back(g.size, i, Pow2(r.cur / 2 - 1));
      State(s.ranks[i := r.(sync := true)], s.chan[(j, i) := Chan(s.chan, j, i) - 1])
  }

  ghost predicate Initial(g: Ring, s: State) {
    && |s.ranks| == g.size && s.chan == map[]
    && forall i :: 0 <= i < |s.ranks| ==> s.ranks[i] == Rank(0, false, 0, true)
  }

  ghost predicate Run(g: Ring, s: State, events: seq<Event>, t: State)
    decreases |events|
  {
    if events == [] then s == t else Enabled(g, s, events[0]) && Run(g, Step(g, s, events[0]), events[1..], t)
  }

  // ----- The invariant -----

  /** In how many barriers a rank has sent, or received, the message of round k. */
  function Sent(r: Rank, k: nat): nat {
    r.done + if r.inside && r.cur > 2 * k then 1 else 0
  }

  function Received(r: Rank, k: nat): nat {
    r.done + if r.inside && (r.cur > 2 * k + 2 || (r.cur == 2 * k + 2 && r.sync)) then 1 else 0
  }

  ghost predicate RankOk(g: Ring, r: Rank) {
    && (r.inside ==> r.cur <= 2 * g.rounds)
    && (!r.sync ==> r.inside && r.cur > 0)
    && (!r.inside ==> r.cur == 0)
  }

  /** The messages of round k on their way to rank i. */
  ghost predicate ChanOk(g: Ring, ranks: seq<Rank>, chan: map<(nat, nat), nat>, i: nat, k: nat)
    requires |ranks| == g.size && i < g.size
  {
    Pow2(k) < g.size &&
    var j := Back(g.size, i, Pow2(k));
    Received(ranks[i], k) + Chan(chan, j, i) == Sent(ranks[j], k)
  }

  ghost predicate Inv(g: Ring, s: State) {
    && |s.ranks| == g.size
    && (forall i :: 0 <= i < g.size ==> RankOk(g, s.ranks[i]))
    && (forall i, k: nat :: 0 <= i < g.size && k < g.rounds ==> ChanOk(g, s.ranks, s.chan, i, k))
  }

  lemma InitialInv(g: Ring, s: State)
    requires g.Valid() && Initial(g, s)
    ensures Inv(g, s)
  {
    forall i, k: nat | 0 <= i < g.size && k < g.rounds ensures ChanOk(g, s.ranks, s.chan, i, k) {
      RoundsBelow(g.size, g.rounds, k);
    }
  }

  lemma RingInverse(size: nat, i: nat, d: nat)
    requires i < size && 0 < d < size
    ensures Ahead(size, Back(size, i, d), d) == i && Back(size, Ahead(size, i, d), d) == i
    ensures Back(size, i, d) != i && Ahead(size, i, d) != i
  {
  }

  lemma BackInjective(size: nat, i: nat, d: nat, e: nat)
    requires i < size && d < size && e < size && Back(size, i, d) == Back(size, i, e)
    ensures d == e
  {
  }

  lemma Pow2Injective(k: nat, l: nat)
    requires Pow2(k) == Pow2(l)
    ensures k == l
  {
    if k < l { Pow2Grows(k, l); } else if l < k { Pow2Grows(l, k); }
  }

  /** A pair of ranks talks in one round only. */
  lemma OneRoundPerPair(size: nat, i: nat, k: nat, l: nat)
    requires i < size && Pow2(k) < size && Pow2(l) < size && Back(size, i, Pow2(k)) == Back(size, i, Pow2(l))
    ensures k == l
  {
    BackInjective(size, i, Pow2(k), Pow2(l));
    Pow2Injective(k, l);
  }

  lemma LocalKeepsChan(g: Ring, ranks: seq<Rank>, x: nat, r: Rank, chan: map<(nat, nat), nat>, i: nat, k: nat)
    requires |ranks| == g.size && x < g.size && i < g.size && ChanOk(g, ranks, chan, i, k)
    requires Sent(r, k) == Sent(ranks[x], k) && Received(r, k) == Received(ranks[x], k)
    ensures ChanOk(g, ranks[x := r], chan, i, k)
  {
  }

  lemma IssueSendKeepsChan(g: Ring, s: State, x: nat, i: nat, k: nat)
    requires Inv(g, s) && Enabled(g, s, Progress(x)) && s.ranks[x].cur < 2 * g.rounds && s.ranks[x].cur % 2 == 0
    requires i < g.size && k < g.rounds
    ensures ChanOk(g, Issue(g, s, x).ranks, Issue(g, s, x).chan, i, k)
  {
    assert ChanOk(g, s.ranks, s.chan, i, k);
    var j, l := Back(g.size, i, Pow2(k)), s.ranks[x].cur / 2;
    RingInverse(g.size, i, Pow2(k));
    RingInverse(g.size, x, Pow2(l));
    if j == x && i == Ahead(g.size, x, Pow2(l)) {
      OneRoundPerPair(g.size, i, k, l);
    }
  }

  lemma IssueRecvKeepsChan(g: Ring, s: State, x: nat, i: nat, k: nat)
    requires Inv(g, s) && Enabled(g, s, Progress(x)) && s.ranks[x].cur < 2 * g.rounds && s.ranks[x].cur % 2 == 1
    requires i < g.size && k < g.rounds
    ensures ChanOk(g, Issue(g, s, x).ranks, Issue(g, s, x).chan, i, k)
  {
    assert ChanOk(g, s.ranks, s.chan, i, k);
    LocalKeepsChan(g, s.ranks, x, s.ranks[x].(cur := s.ranks[x].cur + 1, sync := false), s.chan, i, k);
  }

  lemma DeliverKeepsChan(g: Ring, s: State, x: nat, i: nat, k: nat)
    requires Inv(g, s) && Enabled(g, s, Deliver(x)) && i < g.size && k < g.rounds
    ensures ChanOk(g, Step(g, s, Deliver(x)).ranks, Step(g, s, Deliver(x)).chan, i, k)
  {
    assert ChanOk(g, s.ranks, s.chan, i, k);
    var l := s.ranks[x].cur / 2 - 1;
    if i == x && Back(g.size, x, Pow2(k)) == Back(g.size, x, Pow2(l)) { OneRoundPerPair(g.size, x, k, l); }
    RingInverse(g.size, i, Pow2(k));
  }

  lemma OtherKeepsChan(g: Ring, s: State, e: Event, i: nat, k: nat)
    requires Inv(g, s) && Enabled(g, s, e) && i < g.size && k < g.rounds
    requires e.Enter? || e.SendDone? || (e.Progress? && s.ranks[e.rank].cur >= 2 * g.rounds)
    ensures ChanOk(g, Step(g, s, e).ranks, Step(g, s, e).chan, i, k)
  {
    assert ChanOk(g, s.ranks, s.chan, i, k);
    assert RankOk(g, s.ranks[e.rank]);
    LocalKeepsChan(g, s.ranks, e.rank, Step(g, s, e).ranks[e.rank], s.chan, i, k);
  }

  lemma StepKeepsInv(g: Ring, s: State, e: Event)
    requires Inv(g, s) && Enabled(g, s, e)
    ensures Inv(g, Step(g, s, e))
  {
    var t := Step(g, s, e);
    forall i, k: nat | 0 <= i < g.size && k < g.rounds ensures ChanOk(g, t.ranks, t.chan, i, k) {
      if e.Deliver? { DeliverKeepsChan(g, s, e.rank, i, k); }
      else if e.Progress? && s.ranks[e.rank].cur < 2 * g.rounds {
        if s.ranks[e.rank].cur % 2 == 0 { IssueSendKeepsChan(g, s, e.rank, i, k); }
        else { IssueRecvKeepsChan(g, s, e.rank, i, k); }
      } else { OtherKeepsChan(g, s, e, i, k); }
    }
  }

  lemma {:induction false} RunKeepsInv(g: Ring, s: State, events: seq<Event>, t: State)
    requires Inv(g, s) && Run(g, s, events, t)
    ensures Inv(g, t)
    decreases |events|
  {
    if events != [] {
      StepKeepsInv(g, s, events[0]);
      RunKeepsInv(g, Step(g, s, events[0]), events[1..], t);
    }
  }

  // ----- Who has heard from whom -----

  predicate Entered(r: Rank, m: nat) {
    r.done > m || (r.done == m && r.inside)
  }

  /** A rank that is through round k of barrier m has heard, directly or not, from the 2^(k+1) - 1 ranks before it:
      all of them have entered barrier m. */
  lemma {:induction false} Heard(g: Ring, s: State, i: nat, m: nat, k: nat, d: nat)
    requires Inv(g, s) && i < g.size && k < g.rounds && d < g.size && d < Pow2(k + 1)
    requires Received(s.ranks[i], k) > m
    ensures Entered(s.ranks[Back(g.size, i, d)], m)
    decreases k
  {
    assert ChanOk(g, s.ranks, s.chan, i, k);
    if d < Pow2(k) {
      if k > 0 { Heard(g, s, i, m, k - 1, d); }
    } else {
      var j := Back(g.size, i, Pow2(k));
      assert Back(g.size, j, d - Pow2(k)) == Back(g.size, i, d);
      if k > 0 { Heard(g, s, j, m, k - 1, d - Pow2(k)); }
    }
  }

  lemma FinishedAllEntered(g: Ring, s: State, i: nat, j: nat, m: nat)
    requires g.Valid() && Inv(g, s) && i < g.size && j < g.size && s.ranks[i].done > m
    ensures Entered(s.ranks[j], m)
  {
    if g.rounds > 0 {
      var d := if j <= i then i - j else i + g.size - j;
      assert Back(g.size, i, d) == j;
      Heard(g, s, i, m, g.rounds - 1, d);
    }
  }

  /** In every run, when a rank has finished barrier m, every rank has entered barrier m. */
  lemma BarrierSafety(g: Ring, s: State, events: seq<Event>, t: State, i: nat, j: nat, m: nat)
    requires g.Valid() && Initial(g, s) && Run(g, s, events, t) && i < g.size && j < g.size
    requires |t.ranks| == g.size && t.ranks[i].done > m
    ensures Entered(t.ranks[j], m)
  {
    InitialInv(g, s);
    RunKeepsInv(g, s, events, t);
    FinishedAllEntered(g, t, i, j, m);
  }

  /** So no rank is ever more than one barrier ahead of another. */
  lemma WithinOne(g: Ring, s: State, events: seq<Event>, t: State, i: nat, j: nat)
    requires g.Valid() && Initial(g, s) && Run(g, s, events, t) && i < g.size && j < g.size && |t.ranks| == g.size
    ensures t.ranks[i].done <= t.ranks[j].done + 1
  {
    if t.ranks[i].done > 0 { BarrierSafety(g, s, events, t, i, j, t.ranks[i].done - 1); }
  }

  // ----- Progress -----

  /** A rank inside barrier m moves on, or waits for a rank that is behind it in the same barrier. */
  lemma {:induction false} SomeoneMoves(g: Ring, s: State, i: nat, m: nat) returns (e: Event)
    requires g.Valid() && Inv(g, s) && i < g.size && s.ranks[i].inside && s.ranks[i].done == m
    requires forall j :: 0 <= j < g.size ==> Entered(s.ranks[j], m)
    ensures Enabled(g, s, e) && !e.Enter?
    decreases s.ranks[i].cur
  {
    var r := s.ranks[i];
    assert RankOk(g, r);
    if r.sync {
      if r.cur < 2 * g.rounds { RoundsBelow(g.size, g.rounds, r.cur / 2); }
      e := Progress(i);
    } else if r.cur % 2 == 1 {
      e := SendDone(i);
    } else {
      var k := r.cur / 2 - 1;
      assert ChanOk(g, s.ranks, s.chan, i, k);
      var j := Back(g.size, i, Pow2(k));
      if Chan(s.chan, j, i) > 0 {
        e := Deliver(i);
      } else {
        e := SomeoneMoves(g, s, j, m);
      }
    }
  }

  /** Steps a rank may still take in the barrier it is in. */
  function Left(g: Ring, r: Rank): int {
    if r.inside then 2 * (2 * g.rounds - r.cur) + (if r.sync then 1 else 2) else 0
  }

  function AllLeft(g: Ring, ranks: seq<Rank>): int {
    if ranks == [] then 0 else Left(g, ranks[0]) + AllLeft(g, ranks[1..])
  }

  lemma {:induction false} OneMoves(g: Ring, ranks: seq<Rank>, i: nat, r: Rank)
    requires i < |ranks|
    ensures AllLeft(g, ranks[i := r]) == AllLeft(g, ranks) - Left(g, ranks[i]) + Left(g, r)
  {
    if i == 0 {
      assert ranks[0 := r][1..] == ranks[1..];
    } else {
      assert ranks[i := r][1..] == ranks[1..][i - 1 := r];
      OneMoves(g, ranks[1..], i - 1, r);
    }
  }

  lemma {:induction false} LeftBound(g: Ring, ranks: seq<Rank>)
    requires forall i :: 0 <= i < |ranks| ==> RankOk(g, ranks[i])
    ensures 0 <= AllLeft(g, ranks) <= |ranks| * (4 * g.rounds + 1)
  {
    if ranks != [] {
      LeftBound(g, ranks[1..]);
      assert RankOk(g, ranks[0]);
      assert |ranks| * (4 * g.rounds + 1) == |ranks[1..]| * (4 * g.rounds + 1) + (4 * g.rounds + 1);
    }
  }

  ghost predicate NoneEnters(events: seq<Event>) {
    forall k :: 0 <= k < |events| ==> !events[k].Enter?
  }

  lemma {:induction false} RunUsesUp(g: Ring, s: State, events: seq<Event>, t: State)
    requires Inv(g, s) && Run(g, s, events, t) && NoneEnters(events)
    ensures |events| + AllLeft(g, t.ranks) <= AllLeft(g, s.ranks)
    decreases |events|
  {
    if events != [] {
      var u := Step(g, s, events[0]);
      assert RankOk(g, s.ranks[events[0].rank]);
      OneMoves(g, s.ranks, events[0].rank, u.ranks[events[0].rank]);
      StepKeepsInv(g, s, events[0]);
      RunUsesUp(g, u, events[1..], t);
    }
  }

  lemma {:induction false} StillEntered(g: Ring, s: State, events: seq<Event>, t: State, m: nat)
    requires Inv(g, s) && Run(g, s, events, t) && forall j :: 0 <= j < g.size ==> Entered(s.ranks[j], m)
    ensures Inv(g, t) && forall j :: 0 <= j < g.size ==> Entered(t.ranks[j], m)
    decreases |events|
  {
    if events != [] {
      StepKeepsInv(g, s, events[0]);
      StillEntered(g, Step(g, s, events[0]), events[1..], t, m);
    }
  }

  /** Once all ranks have entered barrier m, however they go on, they take no more than so many steps without entering
      the next one, and at any time either some rank can take a step or all have finished barrier m. */
  lemma BarrierEnds(g: Ring, s: State, events: seq<Event>, t: State, m: nat)
    requires g.Valid() && Inv(g, s) && Run(g, s, events, t) && NoneEnters(events)
    requires forall j :: 0 <= j < g.size ==> Entered(s.ranks[j], m)
    ensures |events| <= g.size * (4 * g.rounds + 1)
    ensures |t.ranks| == g.size
    ensures (forall j :: 0 <= j < g.size ==> t.ranks[j].done > m) || exists e: Event :: Enabled(g, t, e) && !e.Enter?
  {
    StillEntered(g, s, events, t, m);
    RunUsesUp(g, s, events, t);
    LeftBound(g, s.ranks);
    LeftBound(g, t.ranks);
    if i :| 0 <= i < g.size && t.ranks[i].done <= m {
      assert Entered(t.ranks[i], m);
      var e := SomeoneMoves(g, t, i, m);
    }
  }
}
