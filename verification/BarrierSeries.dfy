/** The barrier on the engine: a series of collectives with the barrier's schedules is a run of barriers.  Its
    progress rests on sends that complete on their own: if they waited for their receives, it would stick. */
module BarrierSeries {
  import opened Allreduce
  import E = ColEngine
  import S = ColSeries
  import B = Barrier

  function Schedules(g: B.Ring): (sched: seq<seq<E.Op>>)
    requires B.IsRounds(g.size, g.rounds)
  {
    seq(g.size, i requires 0 <= i < g.size => B.BarrierSchedule(g.size, g.rounds, i))
  }

  /** Every number of the series is a barrier; the bytes it carries do not matter. */
  ghost predicate Barriers<V(!new)>(g: B.Ring, c: S.Series<V>) {
    g.Valid() && forall n: nat :: c.plan(n).sched == Schedules(g)
  }

  // ----- Runs of the engine are runs of barriers -----

  function RankOf<V>(turn: nat, r: E.Rank<V>): B.Rank {
    if r.flag then B.Rank(turn + 1, false, 0, true) else B.Rank(turn, true, r.cur, r.sync0)
  }

  /** The barrier state s stands for the state t of the engine. */
  ghost predicate Stands<V>(g: B.Ring, s: B.State, t: S.Net<V>) {
    && |s.ranks| == |t.turn| == |t.now.ranks| == g.size
    && (forall i :: 0 <= i < g.size ==> s.ranks[i] == RankOf(t.turn[i], t.now.ranks[i]) && Engine(g, t.now.ranks[i]))
    && Counts(s.chan, t.now.chan)
  }

  /** What engine ranks that run barriers are like. */
  predicate Engine<V>(g: B.Ring, r: E.Rank<V>) {
    r.sync1 && r.cur <= 2 * g.rounds && (!r.sync0 ==> r.cur > 0) && (r.flag ==> r.sync0)
  }

  function EventOf(e: S.Event): B.Event {
    match e
    case Next(i) => B.Enter(i)
    case Inner(Progress(i)) => B.Progress(i)
    case Inner(SendDone(i)) => B.SendDone(i)
    case Inner(Deliver(i)) => B.Deliver(i)
  }

  lemma LastOp<V(!new)>(g: B.Ring, c: S.Series<V>, t: S.Net<V>, i: nat)
    requires Barriers(g, c) && i < |t.turn| == |t.now.ranks| == g.size && 0 < t.now.ranks[i].cur <= 2 * g.rounds
    ensures var at := t.now.ranks[i].cur - 1;
      && E.HasLast(c.plan(t.turn[i]), t.now, i) && Pow2(at / 2) < g.size
      && E.Last(c.plan(t.turn[i]), t.now, i) == B.BarrierOp(g.size, i, at)
  {
    assert c.plan(t.turn[i]).sched == Schedules(g);
  }

  /** Channels that hold as many messages as the barrier counts. */
  ghost predicate Counts<V>(chan: map<(nat, nat), nat>, full: E.Channels<V>) {
    forall j: nat, i: nat :: CountsAt(chan, full, j, i)
  }

  predicate CountsAt<V>(chan: map<(nat, nat), nat>, full: E.Channels<V>, j: nat, i: nat) {
    B.Chan(chan, j, i) == |E.Chan(full, j, i)|
  }

  lemma CountsSet<V>(chan: map<(nat, nat), nat>, full: E.Channels<V>, j: nat, i: nat, queue: seq<V>)
    requires Counts(chan, full)
    ensures Counts(chan[(j, i) := |queue|], full[(j, i) := queue])
  {
    var chan', full' := chan[(j, i) := |queue|], full[(j, i) := queue];
    forall k: nat, l: nat ensures CountsAt(chan', full', k, l) {
      assert CountsAt(chan, full, k, l);
    }
  }

  /** An engine step is a barrier step. */
  lemma SendDoneStands<V(!new)>(g: B.Ring, c: S.Series<V>, s: B.State, t: S.Net<V>, i: nat)
    requires Barriers(g, c) && Stands(g, s, t) && S.MayHappen(c, t, S.Inner(E.SendDone(i)))
    ensures B.Enabled(g, s, B.SendDone(i))
    ensures Stands(g, B.Step(g, s, B.SendDone(i)), S.Move(c, t, S.Inner(E.SendDone(i))))
  {
    assert Engine(g, t.now.ranks[i]);
    LastOp(g, c, t, i);
  }

  lemma DeliverStands<V(!new)>(g: B.Ring, c: S.Series<V>, s: B.State, t: S.Net<V>, i: nat)
    requires Barriers(g, c) && Stands(g, s, t) && S.MayHappen(c, t, S.Inner(E.Deliver(i)))
    ensures B.Enabled(g, s, B.Deliver(i))
    ensures Stands(g, B.Step(g, s, B.Deliver(i)), S.Move(c, t, S.Inner(E.Deliver(i))))
  {
    assert Engine(g, t.now.ranks[i]);
    LastOp(g, c, t, i);
    var j := E.Last(c.plan(t.turn[i]), t.now, i).Origin();
    assert CountsAt(s.chan, t.now.chan, j, i);
    CountsSet(s.chan, t.now.chan, j, i, E.Chan(t.now.chan, j, i)[1..]);
  }

  lemma FlagStands<V(!new)>(g: B.Ring, c: S.Series<V>, s: B.State, t: S.Net<V>, i: nat)
    requires Barriers(g, c) && Stands(g, s, t) && S.MayHappen(c, t, S.Inner(E.Progress(i)))
    requires t.now.ranks[i].cur == 2 * g.rounds
    ensures B.Enabled(g, s, B.Progress(i))
    ensures Stands(g, B.Step(g, s, B.Progress(i)), S.Move(c, t, S.Inner(E.Progress(i))))
  {
    assert c.plan(t.turn[i]).sched == Schedules(g);
  }

  lemma IssueStands<V(!new)>(g: B.Ring, c: S.Series<V>, s: B.State, t: S.Net<V>, i: nat)
    requires Barriers(g, c) && Stands(g, s, t) && S.MayHappen(c, t, S.Inner(E.Progress(i)))
    requires t.now.ranks[i].cur < 2 * g.rounds
    ensures B.Enabled(g, s, B.Progress(i))
    ensures Stands(g, B.Step(g, s, B.Progress(i)), S.Move(c, t, S.Inner(E.Progress(i))))
  {
    assert c.plan(t.turn[i]).sched == Schedules(g);
    var op := B.BarrierOp(g.size, i, t.now.ranks[i].cur);
    assert Schedules(g)[i][t.now.ranks[i].cur] == op;
    if op.Send? {
      assert CountsAt(s.chan, t.now.chan, i, op.to);
      CountsSet(s.chan, t.now.chan, i, op.to, E.Chan(t.now.chan, i, op.to) + [t.now.ranks[i].bufs.Get(op.src)]);
    }
  }

  lemma NextStands<V(!new)>(g: B.Ring, c: S.Series<V>, s: B.State, t: S.Net<V>, i: nat)
    requires Barriers(g, c) && Stands(g, s, t) && S.MayHappen(c, t, S.Next(i))
    ensures B.Enabled(g, s, B.Enter(i))
    ensures Stands(g, B.Step(g, s, B.Enter(i)), S.Move(c, t, S.Next(i)))
  {
  }

  lemma MoveStands<V(!new)>(g: B.Ring, c: S.Series<V>, s: B.State, t: S.Net<V>, e: S.Event)
    requires Barriers(g, c) && Stands(g, s, t) && S.MayHappen(c, t, e)
    ensures B.Enabled(g, s, EventOf(e)) && Stands(g, B.Step(g, s, EventOf(e)), S.Move(c, t, e))
  {
    if e.Next? {
      NextStands(g, c, s, t, e.rank);
    } else {
      var i := e.event.rank;
      assert c.plan(t.turn[i]).sched == Schedules(g);
      if e.event.SendDone? { SendDoneStands(g, c, s, t, i); }
      else if e.event.Deliver? { DeliverStands(g, c, s, t, i); }
      else if t.now.ranks[i].cur == 2 * g.rounds { FlagStands(g, c, s, t, i); }
      else { IssueStands(g, c, s, t, i); }
    }
  }

  /** All ranks have entered their first barrier. */
  function AllEntered(size: nat): B.State {
    B.State(seq(size, i => B.Rank(0, true, 0, true)), map[])
  }

  lemma AllEnteredInv(g: B.Ring)
    requires g.Valid()
    ensures B.Inv(g, AllEntered(g.size))
  {
    B.AllRoundsBelow(g.size, g.rounds);
    forall i, k: nat | 0 <= i < g.size && k < g.rounds
      ensures B.ChanOk(g, AllEntered(g.size).ranks, AllEntered(g.size).chan, i, k)
    {
      B.RoundsBelow(g.size, g.rounds, k);
    }
  }

  lemma {:induction false} GoesStands<V(!new)>(g: B.Ring, c: S.Series<V>, s: B.State, t: S.Net<V>,
                                               events: seq<S.Event>, u: S.Net<V>)
    returns (r: B.State)
    requires Barriers(g, c) && Stands(g, s, t) && B.Inv(g, s) && S.Goes(c, t, events, u)
    ensures Stands(g, r, u) && B.Inv(g, r)
    decreases |events|
  {
    if events == [] {
      r := s;
    } else {
      MoveStands(g, c, s, t, events[0]);
      B.StepKeepsInv(g, s, EventOf(events[0]));
      r := GoesStands(g, c, B.Step(g, s, EventOf(events[0])), S.Move(c, t, events[0]), events[1..], u);
    }
  }

  /** In every run of barriers on the engine, when a rank's request of number m is flagged, or it has gone on to a later
      one, every rank has started number m. */
  lemma EngineBarrierSafety<V(!new)>(g: B.Ring, c: S.Series<V>, t: S.Net<V>, events: seq<S.Event>, u: S.Net<V>,
                                     i: nat, j: nat)
    requires Barriers(g, c) && S.Begins(c, t) && S.Goes(c, t, events, u) && i < g.size && j < g.size
    ensures |u.turn| == |u.now.ranks| == g.size
    ensures u.now.ranks[i].flag ==> u.turn[j] >= u.turn[i]
    ensures u.turn[j] + 1 >= u.turn[i]
  {
    AllEnteredInv(g);
    assert c.Sched() == Schedules(g);
    assert Stands(g, AllEntered(g.size), t);
    var s := GoesStands(g, c, AllEntered(g.size), t, events, u);
    if s.ranks[i].done > 0 { B.FinishedAllEntered(g, s, i, j, s.ranks[i].done - 1); }
  }

  // ----- Progress -----

  /** What a barrier can do, the engine can do. */
  lemma EnabledHappens<V(!new)>(g: B.Ring, c: S.Series<V>, s: B.State, t: S.Net<V>, e: B.Event) returns (f: S.Event)
    requires Barriers(g, c) && Stands(g, s, t) && B.Enabled(g, s, e) && !e.Enter? && |c.Sched()| == g.size
    ensures S.MayHappen(c, t, f) && !f.Next?
  {
    var i := e.rank;
    assert Engine(g, t.now.ranks[i]);
    assert c.plan(t.turn[i]).sched == Schedules(g);
    if e.Progress? {
      f := S.Inner(E.Progress(i));
    } else {
      LastOp(g, c, t, i);
      if e.SendDone? {
        f := S.Inner(E.SendDone(i));
      } else {
        assert CountsAt(s.chan, t.now.chan, E.Last(c.plan(t.turn[i]), t.now, i).Origin(), i);
        f := S.Inner(E.Deliver(i));
      }
    }
  }

  /** A rank that no rank is behind. */
  lemma {:induction false} Lowest(turn: seq<nat>) returns (i: nat)
    requires turn != []
    ensures i < |turn| && forall j :: 0 <= j < |turn| ==> turn[i] <= turn[j]
  {
    if |turn| == 1 {
      i := 0;
    } else {
      var k := Lowest(turn[1..]);
      assert forall j :: 1 <= j < |turn| ==> turn[j] == turn[1..][j - 1];
      i := if turn[0] <= turn[k + 1] then 0 else k + 1;
    }
  }

  /** Sends that complete on their own; only a rank behind others starts anew. */
  ghost predicate Moves<V>(c: S.Series<V>, s: S.Net<V>) {
    exists e :: S.MayHappen(c, s, e) && (e.Next? ==> S.Lags(s, e.rank))
  }

  lemma StandsMoves<V(!new)>(g: B.Ring, c: S.Series<V>, s: B.State, t: S.Net<V>)
    requires Barriers(g, c) && Stands(g, s, t) && B.Inv(g, s) && |c.Sched()| == g.size
    ensures Moves(c, t) || S.AllFinished(t)
  {
    var m := Lowest(t.turn);
    if i: nat :| i < g.size && t.turn[i] == t.turn[m] && !t.now.ranks[i].flag {
      var e := B.SomeoneMoves(g, s, i, t.turn[m]);
      var f := EnabledHappens(g, c, s, t, e);
    } else if j :| 0 <= j < g.size && t.turn[j] > t.turn[m] {
      assert S.MayHappen(c, t, S.Next(m)) && S.Lags(t, m);
    }
  }

  /** Barriers on the engine never get stuck as long as their sends complete on their own, and a run is no longer than
      the numbers its ranks have come to allow. */
  lemma EngineBarrierMoves<V(!new)>(g: B.Ring, c: S.Series<V>, t: S.Net<V>, events: seq<S.Event>, u: S.Net<V>)
    requires Barriers(g, c) && S.Begins(c, t) && S.Goes(c, t, events, u)
    ensures Moves(c, u) || S.AllFinished(u)
    ensures |u.turn| == |c.Sched()| && |events| <= S.AllAllowed(c.Sched(), u.turn)
  {
    AllEnteredInv(g);
    S.SeriesBounded(c, t, events, u);
    assert c.Sched() == Schedules(g);
    assert Stands(g, AllEntered(g.size), t);
    var s := GoesStands(g, c, AllEntered(g.size), t, events, u);
    StandsMoves(g, c, s, u);
  }

  // ----- Sends that wait for their receives -----

  /** A run in which every send completes only once its receive is posted. */
  ghost predicate GoesWaiting<V>(c: S.Series<V>, s: S.Net<V>, events: seq<S.Event>, t: S.Net<V>)
    decreases |events|
  {
    if events == [] then s == t
    else S.CanHappen(c, s, events[0]) && GoesWaiting(c, S.Move(c, s, events[0]), events[1..], t)
  }

  /** Every rank is before its first send, or waits for it. */
  ghost predicate NonePast<V>(s: S.Net<V>) {
    |s.turn| == |s.now.ranks| &&
    forall i :: 0 <= i < |s.turn| ==>
      var r := s.now.ranks[i];
      s.turn[i] == 0 && r.cur <= 1 && !r.flag && (r.cur == 1 ==> !r.sync0)
  }

  lemma RoundsIffMany(g: B.Ring)
    requires g.Valid()
    ensures g.rounds > 0 <==> g.size > 1
  {
    if g.rounds > 0 { B.RoundsBelow(g.size, g.rounds, 0); }
  }

  /** No receive is posted before the first send. */
  ghost predicate SendsFirst(ops: seq<E.Op>) {
    ops != [] && ops[0].Send? && forall j :: E.RecvIndex(ops, j) >= 1
  }

  lemma FirstOps<V(!new)>(g: B.Ring, c: S.Series<V>, i: nat)
    requires Barriers(g, c) && g.size > 1 && i < g.size
    ensures |c.Sched()| == g.size && SendsFirst(c.Sched()[i])
  {
    RoundsIffMany(g);
    assert c.plan(0).sched == Schedules(g);
  }

  lemma AllFirstOps<V(!new)>(g: B.Ring, c: S.Series<V>)
    requires Barriers(g, c) && g.size > 1
    ensures |c.Sched()| == g.size && forall i :: 0 <= i < g.size ==> SendsFirst(c.Sched()[i])
  {
    assert c.plan(0).sched == Schedules(g);
    forall i | 0 <= i < g.size ensures SendsFirst(c.Sched()[i]) { FirstOps(g, c, i); }
  }

  lemma WaitingStays<V(!new)>(g: B.Ring, c: S.Series<V>, s: S.Net<V>, e: S.Event)
    requires Barriers(g, c) && g.size > 1 && NonePast(s) && S.CanHappen(c, s, e)
    ensures NonePast(S.Move(c, s, e))
  {
    AllFirstOps(g, c);
    if e.Inner? {
      assert c.plan(s.turn[e.event.rank]).sched == Schedules(g) == c.Sched();
    }
  }

  lemma {:induction false} AllWaitingStay<V(!new)>(g: B.Ring, c: S.Series<V>, s: S.Net<V>, events: seq<S.Event>,
                                                   t: S.Net<V>)
    requires Barriers(g, c) && g.size > 1 && NonePast(s) && GoesWaiting(c, s, events, t)
    ensures NonePast(t)
    decreases |events|
  {
    if events != [] {
      WaitingStays(g, c, s, events[0]);
      AllWaitingStay(g, c, S.Move(c, s, events[0]), events[1..], t);
    }
  }

  /** If every send waits for its receive, then no rank ever finishes a barrier of two or more: each waits for its first
      send and posts no receive before. */
  lemma WaitingFinishesNone<V(!new)>(g: B.Ring, c: S.Series<V>, s: S.Net<V>, events: seq<S.Event>, t: S.Net<V>)
    requires Barriers(g, c) && S.Begins(c, s) && GoesWaiting(c, s, events, t) && g.size > 1
    ensures |t.now.ranks| == |t.turn| && forall i :: 0 <= i < |t.turn| ==> !t.now.ranks[i].flag && t.turn[i] == 0
  {
    AllWaitingStay(g, c, s, events, t);
  }

  /** The first k ranks have issued their first send. */
  ghost predicate Issued<V>(g: B.Ring, c: S.Series<V>, s: S.Net<V>, k: nat) {
    && |s.turn| == |s.now.ranks| == |c.Sched()| == g.size
    && forall i :: 0 <= i < g.size ==>
         s.turn[i] == 0 && !s.now.ranks[i].flag && s.now.ranks[i].sync1 &&
         if i < k then s.now.ranks[i].cur == 1 && !s.now.ranks[i].sync0
         else s.now.ranks[i].cur == 0 && s.now.ranks[i].sync0
  }

  lemma AllIssuedStuck<V(!new)>(g: B.Ring, c: S.Series<V>, s: S.Net<V>, e: S.Event)
    requires Barriers(g, c) && g.size > 1 && Issued(g, c, s, g.size)
    ensures !S.CanHappen(c, s, e)
  {
    AllFirstOps(g, c);
  }

  lemma {:induction false} IssueRest<V(!new)>(g: B.Ring, c: S.Series<V>, s: S.Net<V>, k: nat)
    returns (events: seq<S.Event>, t: S.Net<V>)
    requires Barriers(g, c) && g.size > 1 && k <= g.size && Issued(g, c, s, k)
    ensures GoesWaiting(c, s, events, t) && Issued(g, c, t, g.size)
    decreases g.size - k
  {
    if k == g.size {
      events, t := [], s;
    } else {
      FirstOps(g, c, k);
      var e := S.Inner(E.Progress(k));
      var rest, u := IssueRest(g, c, S.Move(c, s, e), k + 1);
      events, t := [e] + rest, u;
      assert events[1..] == rest;
    }
  }

  /** And they do get stuck: once every rank has issued its first send nothing can happen any more. */
  lemma WaitingSticks<V(!new)>(g: B.Ring, c: S.Series<V>, s: S.Net<V>) returns (events: seq<S.Event>, t: S.Net<V>)
    requires Barriers(g, c) && S.Begins(c, s) && g.size > 1
    ensures GoesWaiting(c, s, events, t) && !S.Moves(c, t) && !S.AllFinished(t)
  {
    assert c.Sched() == Schedules(g);
    events, t := IssueRest(g, c, s, 0);
    forall e ensures !S.CanHappen(c, t, e) { AllIssuedStuck(g, c, t, e); }
    assert !t.now.ranks[0].flag && t.turn[0] == 0;
  }

  /** A barrier of one rank communicates nothing, so it goes on however sends complete. */
  lemma AloneNeverSticks<V(!new)>(g: B.Ring, c: S.Series<V>, s: S.Net<V>, events: seq<S.Event>, t: S.Net<V>)
    requires Barriers(g, c) && S.Begins(c, s) && S.Goes(c, s, events, t) && g.size == 1
    ensures S.Moves(c, t) || S.AllFinished(t)
  {
    RoundsIffMany(g);
    EngineBarrierMoves(g, c, s, events, t);
    assert c.Sched() == Schedules(g);
    if e :| S.MayHappen(c, t, e) && (e.Next? ==> S.Lags(t, e.rank)) {
      if e.Inner? { assert c.plan(t.turn[e.event.rank]).sched == Schedules(g); }
      assert S.CanHappen(c, t, e);
    }
  }
}
