/** The request object of a collective and the call that drives it. */
module ColRequest {
  import opened ColEngine

  /** What one call of the engine leaves of a rank: operations are issued until one is pending or none is left. */
  function Advance<V>(combine: (V, V) -> V, ops: seq<Op>, r: Rank<V>): Rank<V>
    requires r.cur <= |ops|
    decreases |ops| - r.cur
  {
    if r.cur == |ops| then r.(flag := true)
    else
      var r' := Issue(combine, ops[r.cur], r);
      if r'.Idle() then Advance(combine, ops, r') else r'
  }

  /** The messages that call sends, with their targets. */
  function Sends<V>(combine: (V, V) -> V, ops: seq<Op>, r: Rank<V>): seq<(nat, V)>
    requires r.cur <= |ops|
    decreases |ops| - r.cur
  {
    if r.cur == |ops| then []
    else
      var op := ops[r.cur];
      var r' := Issue(combine, op, r);
      (if op.Sends() then [(op.Target(), r.bufs.Get(op.src))] else [])
      + (if r'.Idle() then Sends(combine, ops, r') else [])
  }

  lemma TurnUnfolds<V>(combine: (V, V) -> V, ops: seq<Op>, r: Rank<V>, sent: seq<(nat, V)>)
    requires r.cur < |ops|
    ensures var op := ops[r.cur];
      var r' := Issue(combine, op, r);
      var more := sent + if op.Sends() then [(op.Target(), r.bufs.Get(op.src))] else [];
      && Advance(combine, ops, r) == (if r'.Idle() then Advance(combine, ops, r') else r')
      && sent + Sends(combine, ops, r) == more + (if r'.Idle() then Sends(combine, ops, r') else [])
  {
  }

  class Request<V> {
    var next: seq<Op>
    var cur: nat
    var sync0: bool
    var sync1: bool
    var flag: bool
    var work: V
    var result: V
    var freed: set<Buffer>

    constructor (next: seq<Op>, work: V, result: V)
      ensures this.next == next && AsRank() == Rank(0, true, true, false, Buffers(work, result, {}))
    {
      this.next, this.cur, this.flag := next, 0, false;
      this.sync0, this.sync1 := true, true;
      this.work, this.result, this.freed := work, result, {};
    }

    function AsRank(): Rank<V>
      reads this
    {
      Rank(cur, sync0, sync1, flag, Buffers(work, result, freed))
    }

    function Value(b: Buffer): V
      reads this
    {
      if b.Work? then work else result
    }

    method Store(b: Buffer, v: V)
      modifies this`work, this`result
      ensures Buffers(work, result, freed) == old(Buffers(work, result, freed)).Set(b, v)
    {
      if b.Work? { work := v; } else { result := v; }
    }

    /** One turn of the engine's loop. */
    method Turn(combine: (V, V) -> V) returns (sent: seq<(nat, V)>)
      requires cur < |next|
      modifies this`cur, this`sync0, this`sync1, this`work, this`result, this`freed
      ensures AsRank() == Issue(combine, next[old(cur)], old(AsRank()))
      ensures sent == if next[old(cur)].Sends() then [(next[old(cur)].Target(), old(Value(next[cur].src)))] else []
    {
      var op := next[cur];
      cur := cur + 1;
      sent := [];
      match op
      case Send(src, to) =>
        sync0 := false;
        sent := [(to, Value(src))];
      case Recv(dst, from) =>
        sync0 := false;
      case SendRecv(src, dst, peer) =>
        sync0 := false;
        sent := [(peer, Value(src))];
        sync1 := false;
      case Combine(dst, src) =>
        Store(dst, combine(Value(dst), Value(src)));
      case Copy(dst, src) =>
        Store(dst, Value(src));
      case Free(src) =>
        freed := freed + {src};
    }

    /** Do nothing while a communication is pending; otherwise issue operations up to the next one that stays pending. */
    method Progress(combine: (V, V) -> V) returns (sent: seq<(nat, V)>)
      requires cur <= |next|
      modifies this`cur, this`sync0, this`sync1, this`flag, this`work, this`result, this`freed
      ensures cur <= |next|
      ensures AsRank() == if old(AsRank().Idle()) then Advance(combine, next, old(AsRank())) else old(AsRank())
      ensures sent == if old(AsRank().Idle()) then Sends(combine, next, old(AsRank())) else []
    {
      sent := [];
      if !sync0 || !sync1 { return; }
      ghost var start := AsRank();
      while cur < |next|
        invariant cur <= |next| && AsRank().Idle()
        invariant Advance(combine, next, AsRank()) == Advance(combine, next, start)
        invariant sent + Sends(combine, next, AsRank()) == Sends(combine, next, start)
        decreases |next| - cur
      {
        TurnUnfolds(combine, next, AsRank(), sent);
        var more := Turn(combine);
        sent := sent + more;
        if !sync0 || !sync1 { return; }
      }
      flag := true;
    }
  }

  /** What a call sends to rank k. */
  function SentTo<V>(sent: seq<(nat, V)>, k: nat): seq<V> {
    if sent == [] then [] else (if sent[0].0 == k then [sent[0].1] else []) + SentTo(sent[1..], k)
  }

  /** The channels after a call of rank i that sends `sent`. */
  ghost predicate Appended<V>(chan: Channels<V>, chan': Channels<V>, i: nat, sent: seq<(nat, V)>) {
    forall j: nat, k: nat :: Chan(chan', j, k) == Chan(chan, j, k) + if j == i then SentTo(sent, k) else []
  }

  /** An operation that completes at once sends nothing, and the call goes on. */
  lemma CallGoesOn<V>(plan: Plan<V>, s: State<V>, i: nat)
    requires Enabled(plan, s, Progress(i)) && s.ranks[i].cur < |plan.sched[i]|
    requires Step(plan, s, Progress(i)).ranks[i].Idle()
    ensures var u, ops := Step(plan, s, Progress(i)), plan.sched[i];
      && u.chan == s.chan && u.ranks[i].cur == s.ranks[i].cur + 1 && !u.ranks[i].flag
      && Advance(plan.combine, ops, s.ranks[i]) == Advance(plan.combine, ops, u.ranks[i])
      && Sends(plan.combine, ops, s.ranks[i]) == Sends(plan.combine, ops, u.ranks[i])
  {
    TurnUnfolds(plan.combine, plan.sched[i], s.ranks[i], []);
  }

  /** Any other step is the last of a call. */
  lemma CallEnds<V>(plan: Plan<V>, s: State<V>, i: nat)
    requires Enabled(plan, s, Progress(i))
    requires s.ranks[i].cur < |plan.sched[i]| ==> !Step(plan, s, Progress(i)).ranks[i].Idle()
    ensures var u, ops := Step(plan, s, Progress(i)), plan.sched[i];
      && u.ranks == s.ranks[i := Advance(plan.combine, ops, s.ranks[i])]
      && Appended(s.chan, u.chan, i, Sends(plan.combine, ops, s.ranks[i]))
  {
    if s.ranks[i].cur < |plan.sched[i]| { TurnUnfolds(plan.combine, plan.sched[i], s.ranks[i], []); }
  }

  /** One call of the engine at an idle rank is a run of single steps of that rank: the rank ends up as the call
      leaves it, and what the call sends is appended to the rank's channels, in that order. */
  lemma {:induction false} CallIsRun<V>(plan: Plan<V>, s: State<V>, i: nat) returns (events: seq<Event>, t: State<V>)
    requires i < |s.ranks| == |plan.sched| && s.ranks[i].cur <= |plan.sched[i]| && s.ranks[i].Idle() && !s.ranks[i].flag
    ensures Run(plan, s, events, t) && forall k :: 0 <= k < |events| ==> events[k] == Progress(i)
    ensures t.ranks == s.ranks[i := Advance(plan.combine, plan.sched[i], s.ranks[i])]
    ensures Appended(s.chan, t.chan, i, Sends(plan.combine, plan.sched[i], s.ranks[i]))
    decreases |plan.sched[i]| - s.ranks[i].cur
  {
    var u := Step(plan, s, Progress(i));
    if s.ranks[i].cur < |plan.sched[i]| && u.ranks[i].Idle() {
      CallGoesOn(plan, s, i);
      events, t := CallIsRun(plan, u, i);
      assert ([Progress(i)] + events)[1..] == events;
      events := [Progress(i)] + events;
    } else {
      CallEnds(plan, s, i);
      events, t := [Progress(i)], u;
      assert Run(plan, u, [], u);
    }
  }
}
