/** Non-blocking collectives: every rank runs a schedule of its own, and an engine that stops at each communication
    until it completes.  Any number of ranks, FIFO channels, any interleaving. */
module ColEngine {

  /** The two buffers a schedule works on: the temporary one, and the one the caller gave. */
  datatype Buffer = Work | Result

  datatype Op =
    | Send(src: Buffer, to: nat)
    | Recv(dst: Buffer, from: nat)
    | SendRecv(src: Buffer, dst: Buffer, peer: nat)
    | Combine(dst: Buffer, src: Buffer)
    | Copy(dst: Buffer, src: Buffer)
    | Free(src: Buffer)
  {
    predicate Sends() {
      Send? || SendRecv?
    }

    predicate Receives() {
      Recv? || SendRecv?
    }

    function Target(): nat
      requires Sends()
    {
      if Send? then to else peer
    }

    function Origin(): nat
      requires Receives()
    {
      if Recv? then from else peer
    }

    /** The buffers that an operation reads, writes or frees. */
    function Touched(): set<Buffer> {
      match this
      case Send(src, _) => {src}
      case Recv(dst, _) => {dst}
      case SendRecv(src, dst, _) => {src, dst}
      case Combine(dst, src) => {dst, src}
      case Copy(dst, src) => {dst, src}
      case Free(src) => {src}
    }
  }

  /** Their contents, and which of them have been freed. */
  datatype Buffers<V> = Buffers(work: V, result: V, freed: set<Buffer>) {
    function Get(b: Buffer): V {
      if b.Work? then work else result
    }

    function Set(b: Buffer, v: V): Buffers<V> {
      if b.Work? then this.(work := v) else this.(result := v)
    }
  }

  /** A schedule for every rank, and the operation that combines two values. */
  datatype Plan<!V> = Plan(combine: (V, V) -> V, sched: seq<seq<Op>>)

  /** A rank's request: how far its schedule was issued, the two pending slots, whether it is finished, its buffers. */
  datatype Rank<V> = Rank(cur: nat, sync0: bool, sync1: bool, flag: bool, bufs: Buffers<V>) {
    predicate Idle() {
      sync0 && sync1
    }
  }

  type Channels<V> = map<(nat, nat), seq<V>>

  datatype State<V> = State(ranks: seq<Rank<V>>, chan: Channels<V>)

  datatype Event = Progress(rank: nat) | SendDone(rank: nat) | Deliver(rank: nat)

  function Chan<V>(chan: Channels<V>, j: nat, i: nat): seq<V> {
    if (j, i) in chan then chan[(j, i)] else []
  }

  // ----- Steps -----

  /** What an operation does to the buffers; `incoming` is what it receives, if it receives. */
  function Apply<V>(combine: (V, V) -> V, op: Op, b: Buffers<V>, incoming: V): Buffers<V> {
    match op
    case Send(_, _) => b
    case Recv(dst, _) => b.Set(dst, incoming)
    case SendRecv(_, dst, _) => b.Set(dst, incoming)
    case Combine(dst, src) => b.Set(dst, combine(b.Get(dst), b.Get(src)))
    case Copy(dst, src) => b.Set(dst, b.Get(src))
    case Free(src) => b.(freed := b.freed + {src})
  }

  /** Issue the next operation.  Communication leaves its slots pending, everything else completes at once. */
  function Issue<V>(combine: (V, V) -> V, op: Op, r: Rank<V>): Rank<V> {
    var next := r.(cur := r.cur + 1);
    match op
    case Send(_, _) => next.(sync0 := false)
    case Recv(_, _) => next.(sync0 := false)
    case SendRecv(_, _, _) => next.(sync0 := false, sync1 := false)
    case _ => next.(bufs := Apply(combine, op, r.bufs, r.bufs.work))
  }

  /** Is the receive of this operation still outstanding? */
  predicate Waiting(op: Op, sync0: bool, sync1: bool) {
    (op.Recv? && !sync0) || (op.SendRecv? && !sync1)
  }

  /** The operation rank i issued last, if any. */
  ghost predicate HasLast<V>(plan: Plan<V>, s: State<V>, i: nat) {
    i < |s.ranks| == |plan.sched| && 0 < s.ranks[i].cur <= |plan.sched[i]|
  }

  function Last<V>(plan: Plan<V>, s: State<V>, i: nat): Op
    requires HasLast(plan, s, i)
  {
    plan.sched[i][s.ranks[i].cur - 1]
  }

  ghost predicate Enabled<V>(plan: Plan<V>, s: State<V>, e: Event) {
    match e
    case Progress(i) =>
      i < |s.ranks| == |plan.sched| && s.ranks[i].Idle() && !s.ranks[i].flag && s.ranks[i].cur <= |plan.sched[i]|
    case SendDone(i) =>
      HasLast(plan, s, i) && Last(plan, s, i).Sends() && !s.ranks[i].sync0
    case Deliver(i) =>
      && HasLast(plan, s, i) && Waiting(Last(plan, s, i), s.ranks[i].sync0, s.ranks[i].sync1)
      && Chan(s.chan, Last(plan, s, i).Origin(), i) != []
  }

  function Delivered<V>(op: Op, r: Rank<V>, v: V): Rank<V>
    requires op.Receives()
  {
    if op.Recv? then r.(sync0 := true, bufs := r.bufs.Set(op.dst, v)) else r.(sync1 := true, bufs := r.bufs.Set(op.dst, v))
  }

  /** A step of the engine at one rank, the completion of a send, or the arrival of what a receive waits for. */
  ghost function Step<V>(plan: Plan<V>, s: State<V>, e: Event): State<V>
    requires Enabled(plan, s, e)
  {
    var i := e.rank;
    var r := s.ranks[i];
    match e
    case Progress(_) =>
      if r.cur == |plan.sched[i]| then s.(ranks := s.ranks[i := r.(flag := true)])
      else
        var op := plan.sched[i][r.cur];
        State(s.ranks[i := Issue(plan.combine, op, r)],
              if op.Sends() then s.chan[(i, op.Target()) := Chan(s.chan, i, op.Target()) + [r.bufs.Get(op.src)]] else s.chan)
    case SendDone(_) =>
      s.(ranks := s.ranks[i := r.(sync0 := true)])
    case Deliver(_) =>
      var op := Last(plan, s, i);
      var queue := Chan(s.chan, op.Origin(), i);
      State(s.ranks[i := Delivered(op, r, queue[0])], s.chan[(op.Origin(), i) := queue[1..]])
  }

  ghost predicate Run<V>(plan: Plan<V>, s: State<V>, events: seq<Event>, t: State<V>)
    decreases |events|
  {
    if events == [] then s == t else Enabled(plan, s, events[0]) && Run(plan, Step(plan, s, events[0]), events[1..], t)
  }

  ghost predicate Initial<V>(plan: Plan<V>, s: State<V>) {
    && |s.ranks| == |plan.sched|
    && (forall i :: 0 <= i < |s.ranks| ==> s.ranks[i].cur == 0 && s.ranks[i].Idle() && !s.ranks[i].flag)
    && s.chan == map[]
  }

  // ----- Schedules in which an ordered pair of ranks exchanges at most one message -----

  /** Where a schedule sends to `to`; its length if it never does. */
  function SendIndex(ops: seq<Op>, to: nat): (c: nat)
    ensures c <= |ops|
    ensures c < |ops| ==> ops[c].Sends() && ops[c].Target() == to
  {
    if ops == [] || (ops[0].Sends() && ops[0].Target() == to) then 0 else 1 + SendIndex(ops[1..], to)
  }

  function RecvIndex(ops: seq<Op>, from: nat): (c: nat)
    ensures c <= |ops|
    ensures c < |ops| ==> ops[c].Receives() && ops[c].Origin() == from
  {
    if ops == [] || (ops[0].Receives() && ops[0].Origin() == from) then 0 else 1 + RecvIndex(ops[1..], from)
  }

  /** No schedule sends twice to the same rank or receives twice from the same rank. */
  ghost predicate OncePerPeer(ops: seq<Op>) {
    && (forall c :: 0 <= c < |ops| && ops[c].Sends() ==> SendIndex(ops, ops[c].Target()) == c)
    && (forall c :: 0 <= c < |ops| && ops[c].Receives() ==> RecvIndex(ops, ops[c].Origin()) == c)
  }

  /** A receive has its send at another rank, and a send its receive. */
  ghost predicate MatchedOp(sched: seq<seq<Op>>, i: nat, c: nat)
    requires i < |sched| && c < |sched[i]|
  {
    var op := sched[i][c];
    && (op.Receives() ==>
          op.Origin() < |sched| && op.Origin() != i && SendIndex(sched[op.Origin()], i) < |sched[op.Origin()]|)
    && (op.Sends() ==>
          op.Target() < |sched| && op.Target() != i && RecvIndex(sched[op.Target()], i) < |sched[op.Target()]|)
  }

  ghost predicate Matched(sched: seq<seq<Op>>) {
    && (forall i :: 0 <= i < |sched| ==> OncePerPeer(sched[i]))
    && (forall i, c :: 0 <= i < |sched| && 0 <= c < |sched[i]| ==> MatchedOp(sched, i, c))
  }

  /** The buffers of rank i after c operations, if every rank ran at its own pace without ever waiting in vain. */
  type Ideal<!V> = (nat, nat) -> Buffers<V>

  /** The value that travels from j to i. */
  ghost function Message<V>(plan: Plan<V>, ideal: Ideal<V>, j: nat, i: nat): V
    requires j < |plan.sched| && SendIndex(plan.sched[j], i) < |plan.sched[j]|
  {
    var c := SendIndex(plan.sched[j], i);
    ideal(j, c).Get(plan.sched[j][c].src)
  }

  ghost predicate Explains<V(!new)>(plan: Plan<V>, ideal: Ideal<V>) {
    forall i, c :: 0 <= i < |plan.sched| && 0 <= c < |plan.sched[i]| ==> ExplainsOp(plan, ideal, i, c)
  }

  ghost predicate ExplainsOp<V(!new)>(plan: Plan<V>, ideal: Ideal<V>, i: nat, c: nat)
    requires i < |plan.sched| && c < |plan.sched[i]|
  {
    var op := plan.sched[i][c];
    if op.Receives() then
      && op.Origin() < |plan.sched| && SendIndex(plan.sched[op.Origin()], i) < |plan.sched[op.Origin()]|
      && ideal(i, c + 1) == Apply(plan.combine, op, ideal(i, c), Message(plan, ideal, op.Origin(), i))
    else
      ideal(i, c + 1) == Apply(plan.combine, op, ideal(i, c), ideal(i, c).work)
  }

  // ----- The invariant -----

  /** How many operations of the schedule have taken full effect on the buffers. */
  function Completed<V>(ops: seq<Op>, r: Rank<V>): nat
    requires r.cur <= |ops|
  {
    if r.cur > 0 && Waiting(ops[r.cur - 1], r.sync0, r.sync1) then r.cur - 1 else r.cur
  }

  ghost predicate RankOk<V>(ops: seq<Op>, ideal: Ideal<V>, i: nat, r: Rank<V>) {
    && r.cur <= |ops|
    && (!r.sync0 ==> r.cur > 0 && (ops[r.cur - 1].Sends() || ops[r.cur - 1].Recv?))
    && (!r.sync1 ==> r.cur > 0 && ops[r.cur - 1].SendRecv?)
    && (r.flag ==> r.cur == |ops| && r.Idle())
    && r.bufs == ideal(i, Completed(ops, r))
  }

  predicate HasSent<V>(ops: seq<Op>, r: Rank<V>, i: nat) {
    SendIndex(ops, i) < r.cur
  }

  predicate HasReceived<V>(ops: seq<Op>, r: Rank<V>, j: nat)
    requires r.cur <= |ops|
  {
    RecvIndex(ops, j) < Completed(ops, r)
  }

  /** A channel holds the one message of its pair from when it is sent until it is received. */
  ghost predicate ChanOk<V>(plan: Plan<V>, ideal: Ideal<V>, j: nat, rj: Rank<V>, i: nat, ri: Rank<V>, queue: seq<V>)
    requires j < |plan.sched| && i < |plan.sched| && ri.cur <= |plan.sched[i]| && rj.cur <= |plan.sched[j]|
  {
    && (HasReceived(plan.sched[i], ri, j) ==> HasSent(plan.sched[j], rj, i))
    && queue == if HasSent(plan.sched[j], rj, i) && !HasReceived(plan.sched[i], ri, j) then [Message(plan, ideal, j, i)]
                else []
  }

  ghost predicate RanksOk<V>(plan: Plan<V>, ideal: Ideal<V>, ranks: seq<Rank<V>>) {
    |ranks| == |plan.sched| && forall i :: 0 <= i < |ranks| ==> RankOk(plan.sched[i], ideal, i, ranks[i])
  }

  ghost predicate Inv<V>(plan: Plan<V>, ideal: Ideal<V>, s: State<V>) {
    && RanksOk(plan, ideal, s.ranks)
    && forall j, i :: 0 <= j < |s.ranks| && 0 <= i < |s.ranks| ==>
         ChanOk(plan, ideal, j, s.ranks[j], i, s.ranks[i], Chan(s.chan, j, i))
  }

  ghost predicate Starts<V>(plan: Plan<V>, ideal: Ideal<V>, s: State<V>) {
    Initial(plan, s) && forall i :: 0 <= i < |s.ranks| ==> s.ranks[i].bufs == ideal(i, 0)
  }

  lemma InitialInv<V>(plan: Plan<V>, ideal: Ideal<V>, s: State<V>)
    requires Starts(plan, ideal, s)
    ensures Inv(plan, ideal, s)
  {
  }

  // ----- Every step keeps the invariant -----

  lemma IssueRankOk<V(!new)>(plan: Plan<V>, ideal: Ideal<V>, i: nat, r: Rank<V>)
    requires Explains(plan, ideal) && i < |plan.sched|
    requires RankOk(plan.sched[i], ideal, i, r) && r.Idle() && !r.flag && r.cur < |plan.sched[i]|
    ensures RankOk(plan.sched[i], ideal, i, Issue(plan.combine, plan.sched[i][r.cur], r))
  {
    assert ExplainsOp(plan, ideal, i, r.cur);
  }

  lemma IssueSends<V>(ops: seq<Op>, combine: (V, V) -> V, r: Rank<V>, i: nat)
    requires OncePerPeer(ops) && r.cur < |ops|
    ensures var op := ops[r.cur];
      && (HasSent(ops, Issue(combine, op, r), i) <==> HasSent(ops, r, i) || (op.Sends() && op.Target() == i))
      && (op.Sends() && op.Target() == i ==> !HasSent(ops, r, i) && SendIndex(ops, i) == r.cur)
  {
  }

  lemma IssueReceives<V>(ops: seq<Op>, combine: (V, V) -> V, r: Rank<V>, j: nat)
    requires OncePerPeer(ops) && r.cur < |ops| && r.Idle()
    ensures HasReceived(ops, Issue(combine, ops[r.cur], r), j) <==> HasReceived(ops, r, j)
  {
  }

  lemma DeliverReceives<V>(ops: seq<Op>, r: Rank<V>, j: nat, v: V)
    requires OncePerPeer(ops) && 0 < r.cur <= |ops| && Waiting(ops[r.cur - 1], r.sync0, r.sync1)
    ensures var op := ops[r.cur - 1];
      && (HasReceived(ops, Delivered(op, r, v), j) <==> HasReceived(ops, r, j) || op.Origin() == j)
      && (op.Origin() == j ==> !HasReceived(ops, r, j))
  {
  }

  lemma ProgressChannel<V>(plan: Plan<V>, ideal: Ideal<V>, s: State<V>, x: nat, j: nat, i: nat)
    requires Matched(plan.sched) && Enabled(plan, s, Progress(x)) && j < |s.ranks| && i < |s.ranks|
    requires s.ranks[j].cur <= |plan.sched[j]| && s.ranks[i].cur <= |plan.sched[i]| && s.ranks[x].cur < |plan.sched[x]|
    requires x == j ==> s.ranks[x].bufs == ideal(x, s.ranks[x].cur)
    requires ChanOk(plan, ideal, j, s.ranks[j], i, s.ranks[i], Chan(s.chan, j, i))
    ensures var t := Step(plan, s, Progress(x));
      t.ranks[i].cur <= |plan.sched[i]| && t.ranks[j].cur <= |plan.sched[j]| &&
      ChanOk(plan, ideal, j, t.ranks[j], i, t.ranks[i], Chan(t.chan, j, i))
  {
    var ops := plan.sched[x];
    assert MatchedOp(plan.sched, x, s.ranks[x].cur);
    if j == x { IssueSends(ops, plan.combine, s.ranks[x], i); }
    if i == x { IssueReceives(ops, plan.combine, s.ranks[x], j); }
  }

  lemma RankReplaced<V>(plan: Plan<V>, ideal: Ideal<V>, ranks: seq<Rank<V>>, x: nat, r: Rank<V>)
    requires RanksOk(plan, ideal, ranks) && x < |ranks| && RankOk(plan.sched[x], ideal, x, r)
    ensures RanksOk(plan, ideal, ranks[x := r])
  {
  }

  lemma ProgressRanks<V(!new)>(plan: Plan<V>, ideal: Ideal<V>, ranks: seq<Rank<V>>, x: nat)
    requires RanksOk(plan, ideal, ranks) && Explains(plan, ideal) && x < |ranks|
    requires ranks[x].Idle() && !ranks[x].flag && ranks[x].cur < |plan.sched[x]|
    ensures RanksOk(plan, ideal, ranks[x := Issue(plan.combine, plan.sched[x][ranks[x].cur], ranks[x])])
  {
    IssueRankOk(plan, ideal, x, ranks[x]);
    RankReplaced(plan, ideal, ranks, x, Issue(plan.combine, plan.sched[x][ranks[x].cur], ranks[x]));
  }

  lemma ProgressKeepsInv<V(!new)>(plan: Plan<V>, ideal: Ideal<V>, s: State<V>, x: nat)
    requires Inv(plan, ideal, s) && Explains(plan, ideal) && Matched(plan.sched) && Enabled(plan, s, Progress(x))
    ensures Inv(plan, ideal, Step(plan, s, Progress(x)))
  {
    if s.ranks[x].cur < |plan.sched[x]| {
      var t := Step(plan, s, Progress(x));
      ProgressRanks(plan, ideal, s.ranks, x);
      forall j, i | 0 <= j < |t.ranks| && 0 <= i < |t.ranks|
        ensures ChanOk(plan, ideal, j, t.ranks[j], i, t.ranks[i], Chan(t.chan, j, i))
      {
        ProgressChannel(plan, ideal, s, x, j, i);
      }
    }
  }

  lemma SendDoneKeepsInv<V>(plan: Plan<V>, ideal: Ideal<V>, s: State<V>, x: nat)
    requires Inv(plan, ideal, s) && Enabled(plan, s, SendDone(x))
    ensures Inv(plan, ideal, Step(plan, s, SendDone(x)))
  {
    var t := Step(plan, s, SendDone(x));
    assert Completed(plan.sched[x], t.ranks[x]) == Completed(plan.sched[x], s.ranks[x]);
    forall j, i | 0 <= j < |t.ranks| && 0 <= i < |t.ranks|
      ensures ChanOk(plan, ideal, j, t.ranks[j], i, t.ranks[i], Chan(t.chan, j, i))
    {
      assert ChanOk(plan, ideal, j, s.ranks[j], i, s.ranks[i], Chan(s.chan, j, i));
    }
  }

  lemma DeliverRankOk<V(!new)>(plan: Plan<V>, ideal: Ideal<V>, i: nat, r: Rank<V>, v: V)
    requires Explains(plan, ideal) && i < |plan.sched| && RankOk(plan.sched[i], ideal, i, r) && r.cur > 0
    requires Waiting(plan.sched[i][r.cur - 1], r.sync0, r.sync1)
    requires var op := plan.sched[i][r.cur - 1];
      && op.Origin() < |plan.sched| && SendIndex(plan.sched[op.Origin()], i) < |plan.sched[op.Origin()]|
      && v == Message(plan, ideal, op.Origin(), i)
    ensures RankOk(plan.sched[i], ideal, i, Delivered(plan.sched[i][r.cur - 1], r, v))
  {
    assert ExplainsOp(plan, ideal, i, r.cur - 1);
  }

  lemma DeliverChannel<V>(plan: Plan<V>, ideal: Ideal<V>, j: nat, rj: Rank<V>, i: nat, ri: Rank<V>, queue: seq<V>, v: V)
    requires j < |plan.sched| && i < |plan.sched| && 0 < ri.cur <= |plan.sched[i]| && rj.cur <= |plan.sched[j]|
    requires OncePerPeer(plan.sched[i]) && Waiting(plan.sched[i][ri.cur - 1], ri.sync0, ri.sync1)
    requires ChanOk(plan, ideal, j, rj, i, ri, queue)
    requires plan.sched[i][ri.cur - 1].Origin() == j ==> queue != []
    ensures var op := plan.sched[i][ri.cur - 1];
      ChanOk(plan, ideal, j, rj, i, Delivered(op, ri, v), if op.Origin() == j then queue[1..] else queue)
  {
    DeliverReceives(plan.sched[i], ri, j, v);
  }

  lemma SameSender<V>(plan: Plan<V>, ideal: Ideal<V>, j: nat, rj: Rank<V>, rj': Rank<V>, i: nat, ri: Rank<V>, queue: seq<V>)
    requires j < |plan.sched| && i < |plan.sched| && ri.cur <= |plan.sched[i]| && rj.cur == rj'.cur <= |plan.sched[j]|
    requires ChanOk(plan, ideal, j, rj, i, ri, queue)
    ensures ChanOk(plan, ideal, j, rj', i, ri, queue)
  {
  }

  /** What a delivery leaves at ranks j and i and in the channel between them. */
  lemma DeliverFrame<V>(plan: Plan<V>, s: State<V>, x: nat, j: nat, i: nat)
    requires Enabled(plan, s, Deliver(x)) && j < |s.ranks| && i < |s.ranks|
    ensures var o := Last(plan, s, x).Origin();
      var t := Step(plan, s, Deliver(x));
      && t.ranks[j].cur == s.ranks[j].cur
      && t.ranks[i] == (if i == x then Delivered(Last(plan, s, x), s.ranks[x], Chan(s.chan, o, x)[0]) else s.ranks[i])
      && Chan(t.chan, j, i) == if j == o && i == x then Chan(s.chan, o, x)[1..] else Chan(s.chan, j, i)
  {
  }

  lemma DeliverChannels<V>(plan: Plan<V>, ideal: Ideal<V>, s: State<V>, x: nat, j: nat, i: nat)
    requires Enabled(plan, s, Deliver(x)) && OncePerPeer(plan.sched[x]) && j < |s.ranks| && i < |s.ranks|
    requires s.ranks[j].cur <= |plan.sched[j]| && s.ranks[i].cur <= |plan.sched[i]|
    requires ChanOk(plan, ideal, j, s.ranks[j], i, s.ranks[i], Chan(s.chan, j, i))
    ensures var t := Step(plan, s, Deliver(x));
      t.ranks[i].cur <= |plan.sched[i]| && t.ranks[j].cur <= |plan.sched[j]| &&
      ChanOk(plan, ideal, j, t.ranks[j], i, t.ranks[i], Chan(t.chan, j, i))
  {
    var t := Step(plan, s, Deliver(x));
    DeliverFrame(plan, s, x, j, i);
    if i == x {
      DeliverChannel(plan, ideal, j, s.ranks[j], i, s.ranks[i], Chan(s.chan, j, i),
                     Chan(s.chan, Last(plan, s, x).Origin(), x)[0]);
    }
    SameSender(plan, ideal, j, s.ranks[j], t.ranks[j], i, t.ranks[i], Chan(t.chan, j, i));
  }

  lemma DeliveredMessage<V(!new)>(plan: Plan<V>, ideal: Ideal<V>, s: State<V>, x: nat)
    requires Inv(plan, ideal, s) && Matched(plan.sched) && Enabled(plan, s, Deliver(x))
    ensures var o := Last(plan, s, x).Origin();
      && o < |plan.sched| && SendIndex(plan.sched[o], x) < |plan.sched[o]|
      && Chan(s.chan, o, x) == [Message(plan, ideal, o, x)]
  {
    var o := Last(plan, s, x).Origin();
    assert MatchedOp(plan.sched, x, s.ranks[x].cur - 1);
    assert ChanOk(plan, ideal, o, s.ranks[o], x, s.ranks[x], Chan(s.chan, o, x));
  }

  lemma DeliverKeepsInv<V(!new)>(plan: Plan<V>, ideal: Ideal<V>, s: State<V>, x: nat)
    requires Inv(plan, ideal, s) && Explains(plan, ideal) && Matched(plan.sched) && Enabled(plan, s, Deliver(x))
    ensures Inv(plan, ideal, Step(plan, s, Deliver(x)))
  {
    var t := Step(plan, s, Deliver(x));
    assert RanksOk(plan, ideal, t.ranks) by {
      DeliveredMessage(plan, ideal, s, x);
      DeliverRankOk(plan, ideal, x, s.ranks[x], Chan(s.chan, Last(plan, s, x).Origin(), x)[0]);
      RankReplaced(plan, ideal, s.ranks, x, t.ranks[x]);
    }
    forall j, i | 0 <= j < |t.ranks| && 0 <= i < |t.ranks|
      ensures ChanOk(plan, ideal, j, t.ranks[j], i, t.ranks[i], Chan(t.chan, j, i))
    {
      DeliverChannels(plan, ideal, s, x, j, i);
    }
  }

  lemma StepKeepsInv<V(!new)>(plan: Plan<V>, ideal: Ideal<V>, s: State<V>, e: Event)
    requires Inv(plan, ideal, s) && Explains(plan, ideal) && Matched(plan.sched) && Enabled(plan, s, e)
    ensures Inv(plan, ideal, Step(plan, s, e))
  {
    match e
    case Progress(x) => ProgressKeepsInv(plan, ideal, s, x);
    case SendDone(x) => SendDoneKeepsInv(plan, ideal, s, x);
    case Deliver(x) => DeliverKeepsInv(plan, ideal, s, x);
  }

  lemma {:induction false} RunKeepsInv<V(!new)>(plan: Plan<V>, ideal: Ideal<V>, s: State<V>, events: seq<Event>, t: State<V>)
    requires Inv(plan, ideal, s) && Explains(plan, ideal) && Matched(plan.sched) && Run(plan, s, events, t)
    ensures Inv(plan, ideal, t)
    decreases |events|
  {
    if events != [] {
      StepKeepsInv(plan, ideal, s, events[0]);
      RunKeepsInv(plan, ideal, Step(plan, s, events[0]), events[1..], t);
    }
  }

  /** However the ranks, the sends and the messages interleave, a rank that is finished holds what the schedules run on
      their own would have given it. */
  lemma FinishedIsIdeal<V(!new)>(plan: Plan<V>, ideal: Ideal<V>, s: State<V>, events: seq<Event>, t: State<V>, i: nat)
    requires Starts(plan, ideal, s) && Explains(plan, ideal) && Matched(plan.sched) && Run(plan, s, events, t)
    requires i < |t.ranks| == |plan.sched| && t.ranks[i].flag
    ensures t.ranks[i].bufs == ideal(i, |plan.sched[i]|)
  {
    InitialInv(plan, ideal, s);
    RunKeepsInv(plan, ideal, s, events, t);
  }

  // ----- Progress -----

  /** A time for every operation: matching communications happen at the same time, and each rank communicates at later
      and later times. */
  type Stamp = (nat, nat) -> nat

  predicate Communicates(op: Op) {
    op.Sends() || op.Receives()
  }

  ghost predicate StampedOp(sched: seq<seq<Op>>, stamp: Stamp, i: nat, c: nat)
    requires i < |sched| && c < |sched[i]| && MatchedOp(sched, i, c)
  {
    var op := sched[i][c];
    && (op.Receives() ==> stamp(i, c) == stamp(op.Origin(), SendIndex(sched[op.Origin()], i)))
    && (op.Sends() ==> stamp(i, c) == stamp(op.Target(), RecvIndex(sched[op.Target()], i)))
    && (Communicates(op) ==> forall d :: 0 <= d < c && Communicates(sched[i][d]) ==> stamp(i, d) < stamp(i, c))
  }

  ghost predicate Stamped(sched: seq<seq<Op>>, stamp: Stamp)
    requires Matched(sched)
  {
    forall i, c :: 0 <= i < |sched| && 0 <= c < |sched[i]| ==> StampedOp(sched, stamp, i, c)
  }

  /** Enabled even if a send completes only once the receive it is for was posted. */
  ghost predicate Ready<V>(plan: Plan<V>, s: State<V>, e: Event) {
    && Enabled(plan, s, e)
    && (e.SendDone? ==>
          var t := Last(plan, s, e.rank).Target();
          t < |s.ranks| && RecvIndex(plan.sched[t], e.rank) < s.ranks[t].cur)
  }

  ghost predicate Finished<V>(s: State<V>) {
    forall i :: 0 <= i < |s.ranks| ==> s.ranks[i].flag
  }

  /** A rank that has not reached operation d yet is either free to move or blocked at an earlier time. */
  lemma BlockedEarlier<V>(plan: Plan<V>, ideal: Ideal<V>, s: State<V>, stamp: Stamp, o: nat, d: nat)
    requires Inv(plan, ideal, s) && Matched(plan.sched) && Stamped(plan.sched, stamp)
    requires o < |s.ranks| && s.ranks[o].cur <= d < |plan.sched[o]| && Communicates(plan.sched[o][d]) && !s.ranks[o].Idle()
    ensures HasLast(plan, s, o) && stamp(o, s.ranks[o].cur - 1) < stamp(o, d) && !s.ranks[o].flag
  {
    assert RankOk(plan.sched[o], ideal, o, s.ranks[o]);
    assert StampedOp(plan.sched, stamp, o, d);
  }

  /** A receive that waits at an empty channel waits for a message that was not sent yet. */
  lemma NotSentYet<V>(plan: Plan<V>, ideal: Ideal<V>, s: State<V>, i: nat)
    requires Inv(plan, ideal, s) && Matched(plan.sched)
    requires HasLast(plan, s, i) && Waiting(Last(plan, s, i), s.ranks[i].sync0, s.ranks[i].sync1)
    requires Chan(s.chan, Last(plan, s, i).Origin(), i) == []
    ensures MatchedOp(plan.sched, i, s.ranks[i].cur - 1)
    ensures var o := Last(plan, s, i).Origin(); s.ranks[o].cur <= SendIndex(plan.sched[o], i)
  {
    assert MatchedOp(plan.sched, i, s.ranks[i].cur - 1);
    var o := Last(plan, s, i).Origin();
    assert ChanOk(plan, ideal, o, s.ranks[o], i, s.ranks[i], Chan(s.chan, o, i));
    assert OncePerPeer(plan.sched[i]);
  }

  lemma AwaitedSender<V>(plan: Plan<V>, ideal: Ideal<V>, s: State<V>, stamp: Stamp, i: nat) returns (o: nat, d: nat)
    requires Inv(plan, ideal, s) && Matched(plan.sched) && Stamped(plan.sched, stamp)
    requires HasLast(plan, s, i) && Waiting(Last(plan, s, i), s.ranks[i].sync0, s.ranks[i].sync1)
    requires Chan(s.chan, Last(plan, s, i).Origin(), i) == []
    ensures o < |s.ranks| && s.ranks[o].cur <= d < |plan.sched[o]| && Communicates(plan.sched[o][d])
    ensures stamp(o, d) == stamp(i, s.ranks[i].cur - 1)
  {
    NotSentYet(plan, ideal, s, i);
    assert StampedOp(plan.sched, stamp, i, s.ranks[i].cur - 1);
    o := Last(plan, s, i).Origin();
    d := SendIndex(plan.sched[o], i);
  }

  lemma AwaitedReceiver<V>(plan: Plan<V>, ideal: Ideal<V>, s: State<V>, stamp: Stamp, i: nat) returns (o: nat, d: nat)
    requires Inv(plan, ideal, s) && Matched(plan.sched) && Stamped(plan.sched, stamp)
    requires HasLast(plan, s, i) && Last(plan, s, i).Sends() && !s.ranks[i].sync0 && !Ready(plan, s, SendDone(i))
    ensures o < |s.ranks| && s.ranks[o].cur <= d < |plan.sched[o]| && Communicates(plan.sched[o][d])
    ensures stamp(o, d) == stamp(i, s.ranks[i].cur - 1)
  {
    var c := s.ranks[i].cur - 1;
    o := Last(plan, s, i).Target();
    assert MatchedOp(plan.sched, i, c) && StampedOp(plan.sched, stamp, i, c);
    d := RecvIndex(plan.sched[o], i);
  }

  /** Follow the chain of ranks that wait for each other; time runs backwards along it, so it ends at one that can
      move. */
  lemma FindReady<V>(plan: Plan<V>, ideal: Ideal<V>, s: State<V>, stamp: Stamp, i: nat) returns (e: Event)
    requires Inv(plan, ideal, s) && Matched(plan.sched) && Stamped(plan.sched, stamp)
    requires i < |s.ranks| && !s.ranks[i].flag
    ensures Ready(plan, s, e)
    decreases if s.ranks[i].Idle() || s.ranks[i].cur == 0 then 0 else stamp(i, s.ranks[i].cur - 1) + 1, 0
  {
    assert RankOk(plan.sched[i], ideal, i, s.ranks[i]);
    if s.ranks[i].Idle() {
      e := Progress(i);
    } else {
      var waiting := Waiting(Last(plan, s, i), s.ranks[i].sync0, s.ranks[i].sync1);
      if waiting && Chan(s.chan, Last(plan, s, i).Origin(), i) != [] {
        e := Deliver(i);
      } else if !waiting && Ready(plan, s, SendDone(i)) {
        e := SendDone(i);
      } else {
        var o, d;
        if waiting { o, d := AwaitedSender(plan, ideal, s, stamp, i); }
        else { o, d := AwaitedReceiver(plan, ideal, s, stamp, i); }
        e := FindReadyAt(plan, ideal, s, stamp, o, d);
      }
    }
  }

  lemma FindReadyAt<V>(plan: Plan<V>, ideal: Ideal<V>, s: State<V>, stamp: Stamp, o: nat, d: nat) returns (e: Event)
    requires Inv(plan, ideal, s) && Matched(plan.sched) && Stamped(plan.sched, stamp)
    requires o < |s.ranks| && s.ranks[o].cur <= d < |plan.sched[o]| && Communicates(plan.sched[o][d])
    ensures Ready(plan, s, e)
    decreases stamp(o, d), 1
  {
    if s.ranks[o].Idle() {
      assert RankOk(plan.sched[o], ideal, o, s.ranks[o]);
      e := Progress(o);
    } else {
      BlockedEarlier(plan, ideal, s, stamp, o, d);
      e := FindReady(plan, ideal, s, stamp, o);
    }
  }

  /** As long as one rank is not finished something can happen, even if no send completes before its receive is
      posted. */
  lemma NeverStuck<V(!new)>(plan: Plan<V>, ideal: Ideal<V>, stamp: Stamp, s: State<V>, events: seq<Event>, t: State<V>)
    requires Starts(plan, ideal, s) && Explains(plan, ideal) && Matched(plan.sched) && Stamped(plan.sched, stamp)
    requires Run(plan, s, events, t)
    ensures Finished(t) || exists e :: Ready(plan, t, e)
  {
    InitialInv(plan, ideal, s);
    RunKeepsInv(plan, ideal, s, events, t);
    if i :| 0 <= i < |t.ranks| && !t.ranks[i].flag {
      var e := FindReady(plan, ideal, t, stamp, i);
    }
  }

  // ----- Sends that have completed -----

  /** How many of the first c operations send. */
  function SendsIn(ops: seq<Op>, c: nat): nat
    requires c <= |ops|
  {
    if c == 0 then 0 else SendsIn(ops, c - 1) + if ops[c - 1].Sends() then 1 else 0
  }

  /** How many sends of rank i complete in a run. */
  function SendsDone(events: seq<Event>, i: nat): nat {
    if events == [] then 0 else (if events[0] == SendDone(i) then 1 else 0) + SendsDone(events[1..], i)
  }

  /** The send of rank i that is pending, if any. */
  ghost function PendingSends<V>(plan: Plan<V>, s: State<V>, i: nat): nat {
    if HasLast(plan, s, i) && Last(plan, s, i).Sends() && !s.ranks[i].sync0 then 1 else 0
  }

  /** Issued sends that have completed. */
  ghost function Completions<V>(plan: Plan<V>, s: State<V>, i: nat): int
    requires i < |s.ranks| == |plan.sched| && s.ranks[i].cur <= |plan.sched[i]|
  {
    SendsIn(plan.sched[i], s.ranks[i].cur) - PendingSends(plan, s, i)
  }

  ghost predicate Countable<V>(plan: Plan<V>, s: State<V>, i: nat) {
    && i < |s.ranks| == |plan.sched| && s.ranks[i].cur <= |plan.sched[i]|
    && (s.ranks[i].flag ==> s.ranks[i].Idle() && s.ranks[i].cur == |plan.sched[i]|)
  }

  lemma StepCompletes<V>(plan: Plan<V>, s: State<V>, e: Event, i: nat)
    requires Countable(plan, s, i) && Enabled(plan, s, e)
    ensures var t := Step(plan, s, e);
      && Countable(plan, t, i)
      && Completions(plan, t, i) == Completions(plan, s, i) + if e == SendDone(i) then 1 else 0
  {
  }

  lemma {:induction false} RunCompletes<V>(plan: Plan<V>, s: State<V>, events: seq<Event>, t: State<V>, i: nat)
    requires Countable(plan, s, i) && Run(plan, s, events, t)
    ensures Countable(plan, t, i) && Completions(plan, t, i) == Completions(plan, s, i) + SendsDone(events, i)
    decreases |events|
  {
    if events != [] {
      StepCompletes(plan, s, events[0], i);
      RunCompletes(plan, Step(plan, s, events[0]), events[1..], t, i);
    }
  }

  /** The engine waits for sends: in every run, a rank that has nothing pending has seen every send complete that it has
      issued, and one that is flagged every send of its schedule. */
  lemma AllSendsDone<V>(plan: Plan<V>, s: State<V>, events: seq<Event>, t: State<V>, i: nat)
    requires Initial(plan, s) && Run(plan, s, events, t) && i < |s.ranks|
    ensures i < |t.ranks| == |plan.sched| && t.ranks[i].cur <= |plan.sched[i]|
    ensures t.ranks[i].flag ==> SendsDone(events, i) == SendsIn(plan.sched[i], |plan.sched[i]|)
    ensures t.ranks[i].Idle() ==> SendsDone(events, i) == SendsIn(plan.sched[i], t.ranks[i].cur)
  {
    RunCompletes(plan, s, events, t, i);
  }

  // ----- Freed buffers -----

  /** What the first c operations free. */
  function FreedBy(ops: seq<Op>, c: nat): set<Buffer>
    requires c <= |ops|
  {
    if c == 0 then {} else FreedBy(ops, c - 1) + if ops[c - 1].Free? then {ops[c - 1].src} else {}
  }

  /** No operation touches a buffer that an earlier one frees. */
  ghost predicate FreesLast(ops: seq<Op>) {
    forall c :: 0 <= c < |ops| ==> TouchesNoneFreed(ops, c)
  }

  predicate TouchesNoneFreed(ops: seq<Op>, c: nat)
    requires c < |ops|
  {
    ops[c].Touched() !! FreedBy(ops, c)
  }

  lemma FreesNothing(ops: seq<Op>, c: nat)
    requires c < |ops| && !ops[c].Free?
    ensures FreedBy(ops, c + 1) == FreedBy(ops, c)
  {
  }

  lemma {:induction false} IdealFreed<V(!new)>(plan: Plan<V>, ideal: Ideal<V>, i: nat, c: nat)
    requires Explains(plan, ideal) && i < |plan.sched| && c <= |plan.sched[i]| && ideal(i, 0).freed == {}
    ensures ideal(i, c).freed == FreedBy(plan.sched[i], c)
  {
    if c > 0 {
      IdealFreed(plan, ideal, i, c - 1);
      assert ExplainsOp(plan, ideal, i, c - 1);
    }
  }

  /** The buffers that an event touches: those of the operation issued, or of the communication that completes. */
  ghost function TouchedBy<V>(plan: Plan<V>, s: State<V>, e: Event): set<Buffer>
    requires Enabled(plan, s, e)
  {
    match e
    case Progress(i) => if s.ranks[i].cur < |plan.sched[i]| then plan.sched[i][s.ranks[i].cur].Touched() else {}
    case SendDone(i) => Last(plan, s, i).Touched()
    case Deliver(i) => Last(plan, s, i).Touched()
  }

  /** The communication issued last touches nothing freed. */
  lemma LastNotFreed<V>(ops: seq<Op>, r: Rank<V>)
    requires FreesLast(ops) && 0 < r.cur <= |ops| && !ops[r.cur - 1].Free?
    ensures ops[r.cur - 1].Touched() !! FreedBy(ops, Completed(ops, r))
  {
    var c := r.cur - 1;
    FreesNothing(ops, c);
    assert TouchesNoneFreed(ops, c);
  }

  lemma TouchedNotFreed<V(!new)>(plan: Plan<V>, ideal: Ideal<V>, s: State<V>, e: Event)
    requires Explains(plan, ideal) && Enabled(plan, s, e) && FreesLast(plan.sched[e.rank]) && ideal(e.rank, 0).freed == {}
    requires s.ranks[e.rank].cur <= |plan.sched[e.rank]|
    requires s.ranks[e.rank].bufs == ideal(e.rank, Completed(plan.sched[e.rank], s.ranks[e.rank]))
    ensures TouchedBy(plan, s, e) !! s.ranks[e.rank].bufs.freed
  {
    var ops, r := plan.sched[e.rank], s.ranks[e.rank];
    IdealFreed(plan, ideal, e.rank, Completed(ops, r));
    if e.Progress? {
      assert Completed(ops, r) == r.cur;
      assert r.cur < |ops| ==> TouchesNoneFreed(ops, r.cur);
    } else {
      LastNotFreed(ops, r);
    }
  }

  /** In every run no event touches a buffer that has been freed, and freeing counts as touching. */
  lemma NoUseAfterFree<V(!new)>(plan: Plan<V>, ideal: Ideal<V>, s: State<V>, events: seq<Event>, t: State<V>, e: Event)
    requires Starts(plan, ideal, s) && Explains(plan, ideal) && Matched(plan.sched) && Run(plan, s, events, t)
    requires Enabled(plan, t, e) && FreesLast(plan.sched[e.rank]) && s.ranks[e.rank].bufs.freed == {}
    ensures TouchedBy(plan, t, e) !! t.ranks[e.rank].bufs.freed
  {
    InitialInv(plan, ideal, s);
    RunKeepsInv(plan, ideal, s, events, t);
    assert RankOk(plan.sched[e.rank], ideal, e.rank, t.ranks[e.rank]);
    TouchedNotFreed(plan, ideal, t, e);
  }

  // ----- Termination -----

  /** Steps a rank may still take. */
  function Left<V>(ops: seq<Op>, r: Rank<V>): int {
    4 * (|ops| - r.cur) + (if r.sync0 then 0 else 1) + (if r.sync1 then 0 else 1) + (if r.flag then 0 else 1)
  }

  function AllLeft<V>(sched: seq<seq<Op>>, ranks: seq<Rank<V>>): int
    requires |sched| == |ranks|
  {
    if ranks == [] then 0 else Left(sched[0], ranks[0]) + AllLeft(sched[1..], ranks[1..])
  }

  lemma {:induction false} OneMoves<V>(sched: seq<seq<Op>>, ranks: seq<Rank<V>>, i: nat, r: Rank<V>)
    requires |sched| == |ranks| && i < |ranks|
    ensures AllLeft(sched, ranks[i := r]) == AllLeft(sched, ranks) - Left(sched[i], ranks[i]) + Left(sched[i], r)
  {
    if i == 0 {
      assert ranks[0 := r][1..] == ranks[1..];
    } else {
      assert ranks[i := r][1..] == ranks[1..][i - 1 := r];
      OneMoves(sched[1..], ranks[1..], i - 1, r);
    }
  }

  lemma {:induction false} LeftBound<V>(sched: seq<seq<Op>>, ranks: seq<Rank<V>>)
    requires |sched| == |ranks| && forall i :: 0 <= i < |ranks| ==> ranks[i].cur <= |sched[i]|
    ensures AllLeft(sched, ranks) >= 0
  {
    if ranks != [] { LeftBound(sched[1..], ranks[1..]); }
  }

  lemma StepUsesUp<V>(plan: Plan<V>, ideal: Ideal<V>, s: State<V>, e: Event)
    requires Inv(plan, ideal, s) && Enabled(plan, s, e)
    ensures |Step(plan, s, e).ranks| == |plan.sched|
    ensures AllLeft(plan.sched, Step(plan, s, e).ranks) < AllLeft(plan.sched, s.ranks)
  {
    var i := e.rank;
    OneMoves(plan.sched, s.ranks, i, Step(plan, s, e).ranks[i]);
  }

  lemma {:induction false} RunUsesUp<V(!new)>(plan: Plan<V>, ideal: Ideal<V>, s: State<V>, events: seq<Event>, t: State<V>)
    requires Inv(plan, ideal, s) && Explains(plan, ideal) && Matched(plan.sched) && Run(plan, s, events, t)
    ensures |events| <= AllLeft(plan.sched, s.ranks)
    decreases |events|
  {
    if events == [] {
      LeftBound(plan.sched, s.ranks);
    } else {
      StepUsesUp(plan, ideal, s, events[0]);
      StepKeepsInv(plan, ideal, s, events[0]);
      RunUsesUp(plan, ideal, Step(plan, s, events[0]), events[1..], t);
    }
  }
}
