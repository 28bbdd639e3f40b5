/** Collectives with the same schedules one after another on one tag: a rank may start the next while others are still
    in an earlier one, and messages of several of them may share a channel. */
module ColSeries {
  import opened ColEngine

  /** Number n of the series has a plan and starting buffers of its own; `ideal` is what it gives run on its own. */
  datatype Series<!V> = Series(plan: nat -> Plan<V>, start: (nat, nat) -> Buffers<V>, ideal: nat -> Ideal<V>) {
    function Sched(): seq<seq<Op>> {
      plan(0).sched
    }
  }

  /** Every number has the same matched schedules, and its ideal explains it. */
  ghost predicate Valid<V(!new)>(c: Series<V>) {
    Matched(c.Sched()) && forall n: nat :: ValidAt(c, n)
  }

  ghost predicate ValidAt<V(!new)>(c: Series<V>, n: nat) {
    && c.plan(n).sched == c.Sched() && Explains(c.plan(n), c.ideal(n))
    && forall i :: 0 <= i < |c.Sched()| ==> c.ideal(n)(i, 0) == c.start(n, i)
  }

  /** `turn` says which number each rank's present request is. */
  datatype Net<V> = Net(now: State<V>, turn: seq<nat>)

  datatype Event = Inner(event: ColEngine.Event) | Next(rank: nat)

  ghost predicate MayHappen<V>(c: Series<V>, s: Net<V>, e: Event) {
    && |s.turn| == |s.now.ranks| == |c.Sched()|
    && match e
       case Inner(ev) => ev.rank < |s.turn| && Enabled(c.plan(s.turn[ev.rank]), s.now, ev)
       case Next(i) => i < |s.turn| && s.now.ranks[i].flag
  }

  function Fresh<V>(b: Buffers<V>): Rank<V> {
    Rank(0, true, true, false, b)
  }

  ghost function Move<V>(c: Series<V>, s: Net<V>, e: Event): Net<V>
    requires MayHappen(c, s, e)
  {
    match e
    case Inner(ev) => s.(now := Step(c.plan(s.turn[ev.rank]), s.now, ev))
    case Next(i) =>
      Net(s.now.(ranks := s.now.ranks[i := Fresh(c.start(s.turn[i] + 1, i))]), s.turn[i := s.turn[i] + 1])
  }

  ghost predicate Goes<V>(c: Series<V>, s: Net<V>, events: seq<Event>, t: Net<V>)
    decreases |events|
  {
    if events == [] then s == t else MayHappen(c, s, events[0]) && Goes(c, Move(c, s, events[0]), events[1..], t)
  }

  ghost predicate Begins<V>(c: Series<V>, s: Net<V>) {
    && |s.turn| == |s.now.ranks| == |c.Sched()| && s.now.chan == map[]
    && forall i :: 0 <= i < |s.turn| ==> s.turn[i] == 0 && s.now.ranks[i] == Fresh(c.start(0, i))
  }

  // ----- The invariant -----

  /** The messages from j to i of the numbers lo up to hi. */
  ghost function Messages<V>(c: Series<V>, j: nat, i: nat, lo: nat, hi: nat): seq<V>
    requires j < |c.Sched()| && SendIndex(c.Sched()[j], i) < |c.Sched()[j]|
    decreases hi - lo
  {
    if lo >= hi then [] else [Sole(c, lo, j, i)] + Messages(c, j, i, lo + 1, hi)
  }

  /** The message from j to i of number n. */
  ghost function Sole<V>(c: Series<V>, n: nat, j: nat, i: nat): V
    requires j < |c.Sched()| && SendIndex(c.Sched()[j], i) < |c.Sched()[j]|
  {
    var at := SendIndex(c.Sched()[j], i);
    c.ideal(n)(j, at).Get(c.Sched()[j][at].src)
  }

  lemma {:induction false} MessagesSnoc<V>(c: Series<V>, j: nat, i: nat, lo: nat, hi: nat)
    requires j < |c.Sched()| && SendIndex(c.Sched()[j], i) < |c.Sched()[j]| && lo <= hi
    ensures Messages(c, j, i, lo, hi + 1) == Messages(c, j, i, lo, hi) + [Sole(c, hi, j, i)]
    decreases hi - lo
  {
    if lo < hi { MessagesSnoc(c, j, i, lo + 1, hi); }
  }

  /** How many messages for i a rank has sent in all, and how many from j it has received. */
  function Sent<V>(ops: seq<Op>, turn: nat, r: Rank<V>, i: nat): nat {
    turn + if HasSent(ops, r, i) then 1 else 0
  }

  function Got<V>(ops: seq<Op>, turn: nat, r: Rank<V>, j: nat): nat
    requires r.cur <= |ops|
  {
    turn + if HasReceived(ops, r, j) then 1 else 0
  }

  /** A channel holds, in order, what was sent and not received yet. */
  ghost predicate QueueOk<V>(c: Series<V>, j: nat, sent: nat, i: nat, got: nat, queue: seq<V>)
    requires j < |c.Sched()| && i < |c.Sched()|
  {
    if SendIndex(c.Sched()[j], i) < |c.Sched()[j]| then got <= sent && queue == Messages(c, j, i, got, sent)
    else queue == []
  }

  ghost predicate ChannelOk<V>(c: Series<V>, s: Net<V>, j: nat, i: nat)
    requires j < |c.Sched()| && i < |c.Sched()|
  {
    |c.Sched()| == |s.turn| == |s.now.ranks| && s.now.ranks[i].cur <= |c.Sched()[i]| &&
    QueueOk(c, j, Sent(c.Sched()[j], s.turn[j], s.now.ranks[j], i), i,
            Got(c.Sched()[i], s.turn[i], s.now.ranks[i], j), Chan(s.now.chan, j, i))
  }

  ghost predicate RankFits<V>(c: Series<V>, s: Net<V>, i: nat)
    requires i < |c.Sched()| == |s.turn| == |s.now.ranks|
  {
    RankOk(c.Sched()[i], c.ideal(s.turn[i]), i, s.now.ranks[i])
  }

  ghost predicate Keeps<V>(c: Series<V>, s: Net<V>) {
    && |s.turn| == |s.now.ranks| == |c.Sched()|
    && (forall i :: 0 <= i < |s.turn| ==> RankFits(c, s, i))
    && forall j, i :: 0 <= j < |s.turn| && 0 <= i < |s.turn| ==> ChannelOk(c, s, j, i)
  }

  lemma BeginsKeeps<V(!new)>(c: Series<V>, s: Net<V>)
    requires Valid(c) && Begins(c, s)
    ensures Keeps(c, s)
  {
    assert ValidAt(c, 0);
  }

  // ----- Steps keep it -----

  lemma RankMoves<V(!new)>(c: Series<V>, s: Net<V>, e: Event, i: nat)
    requires Valid(c) && Keeps(c, s) && MayHappen(c, s, e) && i < |s.turn|
    ensures |Move(c, s, e).turn| == |Move(c, s, e).now.ranks| == |s.turn| && RankFits(c, Move(c, s, e), i)
  {
    assert RankFits(c, s, i);
    if e.Next? {
      assert ValidAt(c, s.turn[e.rank] + 1);
    } else {
      var x := e.event.rank;
      assert ValidAt(c, s.turn[x]) && RankFits(c, s, x);
      if i == x { OwnRankMoves(c, s, e.event); }
    }
  }

  lemma OwnRankMoves<V(!new)>(c: Series<V>, s: Net<V>, ev: ColEngine.Event)
    requires Valid(c) && Keeps(c, s) && MayHappen(c, s, Inner(ev))
    ensures RankFits(c, Move(c, s, Inner(ev)), ev.rank)
  {
    var x := ev.rank;
    var n := s.turn[x];
    assert ValidAt(c, n) && RankFits(c, s, x);
    var r := s.now.ranks[x];
    if ev.Progress? && r.cur < |c.Sched()[x]| {
      IssueRankOk(c.plan(n), c.ideal(n), x, r);
    } else if ev.Deliver? {
      FirstMessage(c, s, x);
      DeliverRankOk(c.plan(n), c.ideal(n), x, r, Chan(s.now.chan, Last(c.plan(n), s.now, x).Origin(), x)[0]);
    }
  }

  /** What a waiting receive is given is the message of its own number. */
  lemma FirstMessage<V(!new)>(c: Series<V>, s: Net<V>, x: nat)
    requires Valid(c) && Keeps(c, s) && x < |s.turn| && MayHappen(c, s, Inner(Deliver(x)))
    ensures var plan := c.plan(s.turn[x]);
      var o := Last(plan, s.now, x).Origin();
      && plan.sched == c.Sched() && o < |c.Sched()| && SendIndex(c.Sched()[o], x) < |c.Sched()[o]|
      && Chan(s.now.chan, o, x)[0] == Message(plan, c.ideal(s.turn[x]), o, x)
  {
    assert ValidAt(c, s.turn[x]);
    var o := Last(c.plan(s.turn[x]), s.now, x).Origin();
    assert MatchedOp(c.Sched(), x, s.now.ranks[x].cur - 1) && OncePerPeer(c.Sched()[x]);
    assert ChannelOk(c, s, o, x);
  }

  /** Two ranks that talk do so once in each direction and number. */
  lemma Talks<V>(c: Series<V>, j: nat, i: nat)
    requires Matched(c.Sched()) && j < |c.Sched()| && i < |c.Sched()|
    ensures SendIndex(c.Sched()[j], i) < |c.Sched()[j]| <==> RecvIndex(c.Sched()[i], j) < |c.Sched()[i]|
  {
    if SendIndex(c.Sched()[j], i) < |c.Sched()[j]| { assert MatchedOp(c.Sched(), j, SendIndex(c.Sched()[j], i)); }
    if RecvIndex(c.Sched()[i], j) < |c.Sched()[i]| { assert MatchedOp(c.Sched(), i, RecvIndex(c.Sched()[i], j)); }
  }

  lemma NextChannel<V(!new)>(c: Series<V>, s: Net<V>, x: nat, j: nat, i: nat)
    requires Valid(c) && Keeps(c, s) && MayHappen(c, s, Next(x)) && j < |s.turn| && i < |s.turn|
    ensures ChannelOk(c, Move(c, s, Next(x)), j, i)
  {
    assert RankFits(c, s, i) && RankFits(c, s, x) && ChannelOk(c, s, j, i);
    Talks(c, j, i);
  }

  /** What issuing an operation leaves at ranks j and i and in the channel between them. */
  lemma ProgressFrame<V>(plan: Plan<V>, s: State<V>, x: nat, j: nat, i: nat)
    requires Enabled(plan, s, Progress(x)) && s.ranks[x].cur < |plan.sched[x]| && j < |s.ranks| && i < |s.ranks|
    ensures var t, op := Step(plan, s, Progress(x)), plan.sched[x][s.ranks[x].cur];
      && |t.ranks| == |s.ranks|
      && t.ranks[j] == (if j == x then Issue(plan.combine, op, s.ranks[x]) else s.ranks[j])
      && t.ranks[i] == (if i == x then Issue(plan.combine, op, s.ranks[x]) else s.ranks[i])
      && Chan(t.chan, j, i) == Chan(s.chan, j, i) +
           if j == x && op.Sends() && op.Target() == i then [s.ranks[x].bufs.Get(op.src)] else []
  {
  }

  /** The sender issues: if that is the message for i, it is the one of the sender's number. */
  lemma IssueQueue<V(!new)>(c: Series<V>, j: nat, n: nat, r: Rank<V>, i: nat, got: nat, queue: seq<V>)
    requires Matched(c.Sched()) && j < |c.Sched()| && i < |c.Sched()| && r.cur < |c.Sched()[j]|
    requires QueueOk(c, j, Sent(c.Sched()[j], n, r, i), i, got, queue) && r.bufs == c.ideal(n)(j, r.cur)
    ensures var op := c.Sched()[j][r.cur];
      QueueOk(c, j, Sent(c.Sched()[j], n, Issue(c.plan(n).combine, op, r), i), i, got,
              queue + if op.Sends() && op.Target() == i then [r.bufs.Get(op.src)] else [])
  {
    var op := c.Sched()[j][r.cur];
    IssueSends(c.Sched()[j], c.plan(n).combine, r, i);
    if op.Sends() && op.Target() == i { MessagesSnoc(c, j, i, got, n); } else { assert queue + [] == queue; }
  }

  lemma ProgressSender<V(!new)>(c: Series<V>, s: Net<V>, x: nat, i: nat)
    requires Valid(c) && Keeps(c, s) && MayHappen(c, s, Inner(Progress(x))) && i < |s.turn|
    requires s.now.ranks[x].cur < |c.Sched()[x]|
    ensures ChannelOk(c, Move(c, s, Inner(Progress(x))), x, i)
  {
    var n, r := s.turn[x], s.now.ranks[x];
    assert ValidAt(c, n) && RankFits(c, s, x) && ChannelOk(c, s, x, i);
    ProgressFrame(c.plan(n), s.now, x, x, i);
    IssueReceives(c.Sched()[x], c.plan(n).combine, r, x);
    IssueQueue(c, x, n, r, i, Got(c.Sched()[i], s.turn[i], s.now.ranks[i], x), Chan(s.now.chan, x, i));
  }

  /** Issuing receives nothing yet. */
  lemma IssueGot<V(!new)>(c: Series<V>, x: nat, n: nat, r: Rank<V>, j: nat)
    requires Matched(c.Sched()) && x < |c.Sched()| && r.cur < |c.Sched()[x]| && r.Idle()
    ensures var next := Issue(c.plan(n).combine, c.Sched()[x][r.cur], r);
      next.cur <= |c.Sched()[x]| && Got(c.Sched()[x], n, next, j) == Got(c.Sched()[x], n, r, j)
  {
    IssueReceives(c.Sched()[x], c.plan(n).combine, r, j);
  }

  lemma ProgressOther<V(!new)>(c: Series<V>, s: Net<V>, x: nat, j: nat, i: nat)
    requires Valid(c) && Keeps(c, s) && MayHappen(c, s, Inner(Progress(x))) && j < |s.turn| && i < |s.turn| && j != x
    requires s.now.ranks[x].cur < |c.Sched()[x]|
    ensures ChannelOk(c, Move(c, s, Inner(Progress(x))), j, i)
  {
    var t := Move(c, s, Inner(Progress(x)));
    assert ValidAt(c, s.turn[x]);
    ProgressFrame(c.plan(s.turn[x]), s.now, x, j, i);
    assert Chan(t.now.chan, j, i) == Chan(s.now.chan, j, i);
    IssueGot(c, x, s.turn[x], s.now.ranks[x], j);
    assert ChannelOk(c, s, j, i);
  }

  lemma ProgressChannels<V(!new)>(c: Series<V>, s: Net<V>, x: nat, j: nat, i: nat)
    requires Valid(c) && Keeps(c, s) && MayHappen(c, s, Inner(Progress(x))) && j < |s.turn| && i < |s.turn|
    ensures ChannelOk(c, Move(c, s, Inner(Progress(x))), j, i)
  {
    assert ValidAt(c, s.turn[x]) && ChannelOk(c, s, j, i);
    if s.now.ranks[x].cur < |c.Sched()[x]| {
      if j == x { ProgressSender(c, s, x, i); } else { ProgressOther(c, s, x, j, i); }
    }
  }

  /** A send that completes changes neither what was sent nor what was received. */
  lemma SendDoneCounts<V>(ops: seq<Op>, turn: nat, r: Rank<V>, k: nat)
    requires 0 < r.cur <= |ops| && ops[r.cur - 1].Sends()
    ensures Sent(ops, turn, r.(sync0 := true), k) == Sent(ops, turn, r, k)
    ensures Got(ops, turn, r.(sync0 := true), k) == Got(ops, turn, r, k)
  {
  }

  lemma SendDoneChannels<V(!new)>(c: Series<V>, s: Net<V>, x: nat, j: nat, i: nat)
    requires Valid(c) && Keeps(c, s) && MayHappen(c, s, Inner(SendDone(x))) && j < |s.turn| && i < |s.turn|
    ensures var t := Move(c, s, Inner(SendDone(x)));
      |t.now.ranks| == |s.turn| && ChannelOk(c, t, j, i)
  {
    assert ValidAt(c, s.turn[x]) && ChannelOk(c, s, j, i);
    SendDoneCounts(c.Sched()[x], s.turn[x], s.now.ranks[x], i);
    SendDoneCounts(c.Sched()[x], s.turn[x], s.now.ranks[x], j);
  }

  /** The receiver takes the first message of the channel it waits for, and of no other. */
  lemma DeliverQueue<V(!new)>(c: Series<V>, j: nat, sent: nat, i: nat, n: nat, r: Rank<V>, v: V, queue: seq<V>)
    requires Matched(c.Sched()) && j < |c.Sched()| && i < |c.Sched()| && 0 < r.cur <= |c.Sched()[i]|
    requires Waiting(c.Sched()[i][r.cur - 1], r.sync0, r.sync1)
    requires QueueOk(c, j, sent, i, Got(c.Sched()[i], n, r, j), queue)
    requires c.Sched()[i][r.cur - 1].Origin() == j ==> queue != []
    ensures var op := c.Sched()[i][r.cur - 1];
      && Delivered(op, r, v).cur == r.cur
      && QueueOk(c, j, sent, i, Got(c.Sched()[i], n, Delivered(op, r, v), j), if op.Origin() == j then queue[1..] else queue)
  {
    DeliverReceives(c.Sched()[i], r, j, v);
  }

  lemma DeliverChannelsOf<V(!new)>(c: Series<V>, s: Net<V>, x: nat, j: nat, i: nat)
    requires Valid(c) && Keeps(c, s) && MayHappen(c, s, Inner(Deliver(x))) && j < |s.turn| && i < |s.turn|
    ensures var t := Move(c, s, Inner(Deliver(x)));
      |t.now.ranks| == |s.turn| && ChannelOk(c, t, j, i)
  {
    var plan := c.plan(s.turn[x]);
    assert ValidAt(c, s.turn[x]) && ChannelOk(c, s, j, i);
    var o := Last(plan, s.now, x).Origin();
    DeliverFrame(plan, s.now, x, j, i);
    assert Sent(c.Sched()[j], s.turn[j], Move(c, s, Inner(Deliver(x))).now.ranks[j], i) ==
      Sent(c.Sched()[j], s.turn[j], s.now.ranks[j], i);
    if i == x {
      DeliverQueue(c, j, Sent(c.Sched()[j], s.turn[j], s.now.ranks[j], i), i, s.turn[i], s.now.ranks[i],
                   Chan(s.now.chan, o, x)[0], Chan(s.now.chan, j, i));
    }
  }

  lemma MoveKeeps<V(!new)>(c: Series<V>, s: Net<V>, e: Event)
    requires Valid(c) && Keeps(c, s) && MayHappen(c, s, e)
    ensures Keeps(c, Move(c, s, e))
  {
    var t := Move(c, s, e);
    forall i | 0 <= i < |s.turn| ensures |t.turn| == |t.now.ranks| == |s.turn| && RankFits(c, t, i) {
      RankMoves(c, s, e, i);
    }
    RankMoves(c, s, e, if e.Next? then e.rank else e.event.rank);
    forall j, i | 0 <= j < |s.turn| && 0 <= i < |s.turn| ensures ChannelOk(c, t, j, i) {
      if e.Next? { NextChannel(c, s, e.rank, j, i); }
      else if e.event.Progress? { ProgressChannels(c, s, e.event.rank, j, i); }
      else if e.event.SendDone? { SendDoneChannels(c, s, e.event.rank, j, i); }
      else { DeliverChannelsOf(c, s, e.event.rank, j, i); }
    }
  }

  lemma {:induction false} GoesKeeps<V(!new)>(c: Series<V>, s: Net<V>, events: seq<Event>, t: Net<V>)
    requires Valid(c) && Keeps(c, s) && Goes(c, s, events, t)
    ensures Keeps(c, t)
    decreases |events|
  {
    if events != [] {
      MoveKeeps(c, s, events[0]);
      GoesKeeps(c, Move(c, s, events[0]), events[1..], t);
    }
  }

  /** In every run of a series, a rank whose request of number n is finished holds what number n gives run on its own. */
  lemma SeriesIsIdeal<V(!new)>(c: Series<V>, s: Net<V>, events: seq<Event>, t: Net<V>, i: nat)
    requires Valid(c) && Begins(c, s) && Goes(c, s, events, t)
    requires i < |t.turn| == |t.now.ranks| == |c.Sched()| && t.now.ranks[i].flag
    ensures t.now.ranks[i].bufs == c.ideal(t.turn[i])(i, |c.Sched()[i]|)
  {
    BeginsKeeps(c, s);
    GoesKeeps(c, s, events, t);
    assert RankFits(c, t, i);
  }

  /** In every run of a series no event touches a freed buffer, if no schedule does and every number starts with none
      freed. */
  lemma SeriesNoUseAfterFree<V(!new)>(c: Series<V>, s: Net<V>, events: seq<Event>, t: Net<V>, ev: ColEngine.Event)
    requires Valid(c) && Begins(c, s) && Goes(c, s, events, t) && MayHappen(c, t, Inner(ev))
    requires FreesLast(c.Sched()[ev.rank]) && c.start(t.turn[ev.rank], ev.rank).freed == {}
    ensures TouchedBy(c.plan(t.turn[ev.rank]), t.now, ev) !! t.now.ranks[ev.rank].bufs.freed
  {
    BeginsKeeps(c, s);
    GoesKeeps(c, s, events, t);
    var n := t.turn[ev.rank];
    assert ValidAt(c, n) && RankFits(c, t, ev.rank);
    TouchedNotFreed(c.plan(n), c.ideal(n), t.now, ev);
  }

  // ----- Progress -----

  /** The receive that the send of rank i is for has been posted. */
  ghost predicate Posted<V>(c: Series<V>, s: Net<V>, i: nat)
    requires |s.turn| == |s.now.ranks| == |c.Sched()| && i < |s.turn| && HasLast(c.plan(s.turn[i]), s.now, i)
    requires Last(c.plan(s.turn[i]), s.now, i).Sends()
  {
    var to := Last(c.plan(s.turn[i]), s.now, i).Target();
    to < |s.turn| &&
    (s.turn[to] > s.turn[i] || (s.turn[to] == s.turn[i] && RecvIndex(c.Sched()[to], i) < s.now.ranks[to].cur))
  }

  predicate Lags<V>(s: Net<V>, i: nat) {
    i < |s.turn| && exists j :: 0 <= j < |s.turn| && s.turn[j] > s.turn[i]
  }

  /** Can happen even if a send completes only once its receive is posted; only a rank behind others starts anew. */
  ghost predicate CanHappen<V>(c: Series<V>, s: Net<V>, e: Event) {
    && MayHappen(c, s, e)
    && (e.Next? ==> Lags(s, e.rank))
    && (e.Inner? && e.event.SendDone? ==> Posted(c, s, e.event.rank))
  }

  /** A receive that finds its channel empty waits for a rank that has not come to the send yet, or lags. */
  lemma EmptyChannel<V(!new)>(c: Series<V>, s: Net<V>, i: nat)
    requires Valid(c) && Keeps(c, s) && i < |s.turn| && HasLast(c.plan(s.turn[i]), s.now, i)
    requires var op := Last(c.plan(s.turn[i]), s.now, i);
      Waiting(op, s.now.ranks[i].sync0, s.now.ranks[i].sync1) && Chan(s.now.chan, op.Origin(), i) == []
    ensures c.plan(s.turn[i]).sched == c.Sched() && MatchedOp(c.Sched(), i, s.now.ranks[i].cur - 1)
    ensures var o := Last(c.plan(s.turn[i]), s.now, i).Origin();
      s.turn[o] < s.turn[i] || (s.turn[o] == s.turn[i] && s.now.ranks[o].cur <= SendIndex(c.Sched()[o], i))
  {
    assert ValidAt(c, s.turn[i]);
    assert MatchedOp(c.Sched(), i, s.now.ranks[i].cur - 1) && OncePerPeer(c.Sched()[i]);
    var o := Last(c.plan(s.turn[i]), s.now, i).Origin();
    assert ChannelOk(c, s, o, i);
  }

  lemma EarlierOp<V(!new)>(c: Series<V>, s: Net<V>, stamp: Stamp, o: nat, d: nat)
    requires Valid(c) && Keeps(c, s) && Stamped(c.Sched(), stamp)
    requires o < |s.turn| && s.now.ranks[o].cur <= d < |c.Sched()[o]| && Communicates(c.Sched()[o][d])
    ensures !s.now.ranks[o].flag
    ensures !s.now.ranks[o].Idle() ==> s.now.ranks[o].cur > 0 && stamp(o, s.now.ranks[o].cur - 1) < stamp(o, d)
  {
    assert RankFits(c, s, o);
    assert StampedOp(c.Sched(), stamp, o, d);
  }

  /** Follow the chain of ranks that wait for each other, down through numbers and stamps. */
  lemma FindMove<V(!new)>(c: Series<V>, s: Net<V>, stamp: Stamp, i: nat) returns (e: Event)
    requires Valid(c) && Keeps(c, s) && Stamped(c.Sched(), stamp)
    requires i < |s.turn| && (s.now.ranks[i].flag ==> Lags(s, i))
    ensures CanHappen(c, s, e)
    decreases s.turn[i],
              if s.now.ranks[i].Idle() || s.now.ranks[i].cur == 0 then 0 else stamp(i, s.now.ranks[i].cur - 1) + 1, 0
  {
    assert RankFits(c, s, i) && ValidAt(c, s.turn[i]);
    var r := s.now.ranks[i];
    if r.flag {
      e := Next(i);
    } else if r.Idle() {
      e := Inner(Progress(i));
    } else {
      var op := Last(c.plan(s.turn[i]), s.now, i);
      if Waiting(op, r.sync0, r.sync1) {
        if Chan(s.now.chan, op.Origin(), i) != [] { e := Inner(Deliver(i)); } else { e := FindSender(c, s, stamp, i); }
      } else {
        if Posted(c, s, i) { e := Inner(SendDone(i)); } else { e := FindReceiver(c, s, stamp, i); }
      }
    }
  }

  lemma FindSender<V(!new)>(c: Series<V>, s: Net<V>, stamp: Stamp, i: nat) returns (e: Event)
    requires Valid(c) && Keeps(c, s) && Stamped(c.Sched(), stamp)
    requires i < |s.turn| && !s.now.ranks[i].Idle() && HasLast(c.plan(s.turn[i]), s.now, i)
    requires var op := Last(c.plan(s.turn[i]), s.now, i);
      Waiting(op, s.now.ranks[i].sync0, s.now.ranks[i].sync1) && Chan(s.now.chan, op.Origin(), i) == []
    ensures CanHappen(c, s, e)
    decreases s.turn[i], stamp(i, s.now.ranks[i].cur - 1), 2
  {
    EmptyChannel(c, s, i);
    assert StampedOp(c.Sched(), stamp, i, s.now.ranks[i].cur - 1);
    var o := Last(c.plan(s.turn[i]), s.now, i).Origin();
    if s.turn[o] < s.turn[i] {
      assert Lags(s, o);
      e := FindMove(c, s, stamp, o);
    } else {
      e := FindMoveAt(c, s, stamp, o, SendIndex(c.Sched()[o], i));
    }
  }

  lemma FindReceiver<V(!new)>(c: Series<V>, s: Net<V>, stamp: Stamp, i: nat) returns (e: Event)
    requires Valid(c) && Keeps(c, s) && Stamped(c.Sched(), stamp)
    requires i < |s.turn| && !s.now.ranks[i].Idle() && HasLast(c.plan(s.turn[i]), s.now, i)
    requires Last(c.plan(s.turn[i]), s.now, i).Sends() && !Posted(c, s, i)
    ensures CanHappen(c, s, e)
    decreases s.turn[i], stamp(i, s.now.ranks[i].cur - 1), 2
  {
    assert ValidAt(c, s.turn[i]);
    var at := s.now.ranks[i].cur - 1;
    assert MatchedOp(c.Sched(), i, at) && StampedOp(c.Sched(), stamp, i, at);
    var o := Last(c.plan(s.turn[i]), s.now, i).Target();
    if s.turn[o] < s.turn[i] {
      assert Lags(s, o);
      e := FindMove(c, s, stamp, o);
    } else {
      e := FindMoveAt(c, s, stamp, o, RecvIndex(c.Sched()[o], i));
    }
  }

  lemma FindMoveAt<V(!new)>(c: Series<V>, s: Net<V>, stamp: Stamp, o: nat, d: nat) returns (e: Event)
    requires Valid(c) && Keeps(c, s) && Stamped(c.Sched(), stamp)
    requires o < |s.turn| && s.now.ranks[o].cur <= d < |c.Sched()[o]| && Communicates(c.Sched()[o][d])
    ensures CanHappen(c, s, e)
    decreases s.turn[o], stamp(o, d), 1
  {
    EarlierOp(c, s, stamp, o, d);
    if s.now.ranks[o].Idle() {
      assert RankFits(c, s, o) && ValidAt(c, s.turn[o]);
      e := Inner(Progress(o));
    } else {
      e := FindMove(c, s, stamp, o);
    }
  }

  ghost predicate Moves<V>(c: Series<V>, s: Net<V>) {
    exists e :: CanHappen(c, s, e)
  }

  /** All ranks have finished the same number. */
  ghost predicate AllFinished<V>(s: Net<V>) {
    |s.turn| == |s.now.ranks| &&
    forall i, j :: 0 <= i < |s.turn| && 0 <= j < |s.turn| ==> s.now.ranks[i].flag && s.turn[i] == s.turn[j]
  }

  /** A series never gets stuck: something can happen until all ranks have finished the same number. */
  lemma SeriesNeverStuck<V(!new)>(c: Series<V>, stamp: Stamp, s: Net<V>, events: seq<Event>, t: Net<V>)
    requires Valid(c) && Stamped(c.Sched(), stamp) && Begins(c, s) && Goes(c, s, events, t)
    ensures Moves(c, t) || AllFinished(t)
  {
    BeginsKeeps(c, s);
    GoesKeeps(c, s, events, t);
    if i :| 0 <= i < |t.turn| && !t.now.ranks[i].flag {
      var e := FindMove(c, t, stamp, i);
    } else if i, j :| 0 <= i < |t.turn| && 0 <= j < |t.turn| && t.turn[i] < t.turn[j] {
      assert Lags(t, i);
      var e := FindMove(c, t, stamp, i);
    }
  }

  // ----- How long a series can go on -----

  /** Events a rank may have a part in up to and including request number `turn`. */
  function Allowed(ops: seq<Op>, turn: nat): int {
    (turn + 1) * (4 * |ops| + 2) - 1
  }

  lemma NextAllows(ops: seq<Op>, turn: nat)
    ensures Allowed(ops, turn + 1) == Allowed(ops, turn) + 4 * |ops| + 2
  {
  }

  function AllAllowed(sched: seq<seq<Op>>, turn: seq<nat>): int
    requires |sched| == |turn|
  {
    if turn == [] then 0 else Allowed(sched[0], turn[0]) + AllAllowed(sched[1..], turn[1..])
  }

  lemma {:induction false} OneAllowed(sched: seq<seq<Op>>, turn: seq<nat>, i: nat)
    requires |sched| == |turn| && i < |turn|
    ensures AllAllowed(sched, turn[i := turn[i] + 1]) == AllAllowed(sched, turn) + 4 * |sched[i]| + 2
  {
    NextAllows(sched[i], turn[i]);
    if i == 0 {
      assert turn[0 := turn[0] + 1][1..] == turn[1..];
    } else {
      assert turn[i := turn[i] + 1][1..] == turn[1..][i - 1 := turn[1..][i - 1] + 1];
      OneAllowed(sched[1..], turn[1..], i - 1);
    }
  }

  ghost predicate SameSchedules<V(!new)>(c: Series<V>) {
    forall n: nat :: c.plan(n).sched == c.Sched()
  }

  predicate Within<V>(sched: seq<seq<Op>>, ranks: seq<Rank<V>>) {
    |ranks| == |sched| && forall i :: 0 <= i < |ranks| ==> ranks[i].cur <= |sched[i]|
  }

  /** What all ranks may still do, less what they were allowed: it goes down with every event. */
  function Balance<V>(sched: seq<seq<Op>>, s: Net<V>): int
    requires |sched| == |s.turn| == |s.now.ranks|
  {
    AllLeft(sched, s.now.ranks) - AllAllowed(sched, s.turn)
  }

  ghost predicate UsesUp<V>(c: Series<V>, s: Net<V>, t: Net<V>) {
    && |s.turn| == |s.now.ranks| == |t.turn| == |c.Sched()| && Within(c.Sched(), t.now.ranks)
    && Balance(c.Sched(), t) < Balance(c.Sched(), s)
  }

  lemma NextUsesUp<V(!new)>(c: Series<V>, s: Net<V>, i: nat)
    requires SameSchedules(c) && MayHappen(c, s, Next(i)) && Within(c.Sched(), s.now.ranks)
    ensures UsesUp(c, s, Move(c, s, Next(i)))
  {
    OneMoves(c.Sched(), s.now.ranks, i, Fresh(c.start(s.turn[i] + 1, i)));
    OneAllowed(c.Sched(), s.turn, i);
  }

  lemma InnerUsesUp<V(!new)>(c: Series<V>, s: Net<V>, ev: ColEngine.Event)
    requires SameSchedules(c) && MayHappen(c, s, Inner(ev)) && Within(c.Sched(), s.now.ranks)
    ensures UsesUp(c, s, Move(c, s, Inner(ev)))
  {
    var plan := c.plan(s.turn[ev.rank]);
    assert plan.sched == c.Sched();
    OneMoves(c.Sched(), s.now.ranks, ev.rank, Step(plan, s.now, ev).ranks[ev.rank]);
  }

  lemma MoveUsesUp<V(!new)>(c: Series<V>, s: Net<V>, e: Event)
    requires SameSchedules(c) && MayHappen(c, s, e) && Within(c.Sched(), s.now.ranks)
    ensures UsesUp(c, s, Move(c, s, e))
  {
    match e
    case Next(i) => NextUsesUp(c, s, i);
    case Inner(ev) => InnerUsesUp(c, s, ev);
  }

  lemma {:induction false} GoesUsesUp<V(!new)>(c: Series<V>, s: Net<V>, events: seq<Event>, t: Net<V>)
    requires SameSchedules(c) && Goes(c, s, events, t)
    requires |s.turn| == |c.Sched()| && Within(c.Sched(), s.now.ranks)
    ensures |t.turn| == |c.Sched()| && Within(c.Sched(), t.now.ranks)
    ensures |events| + Balance(c.Sched(), t) <= Balance(c.Sched(), s)
    decreases |events|
  {
    if events != [] {
      MoveUsesUp(c, s, events[0]);
      GoesUsesUp(c, Move(c, s, events[0]), events[1..], t);
    }
  }

  lemma {:induction false} FreshBalance<V>(sched: seq<seq<Op>>, ranks: seq<Rank<V>>, turn: seq<nat>)
    requires |sched| == |turn| == |ranks|
    requires forall i :: 0 <= i < |ranks| ==> turn[i] == 0 && ranks[i] == Fresh(ranks[i].bufs)
    ensures AllLeft(sched, ranks) == AllAllowed(sched, turn)
  {
    if ranks != [] { FreshBalance(sched[1..], ranks[1..], turn[1..]); }
  }

  /** A run of a series is no longer than the numbers its ranks have come to allow. */
  lemma SeriesBounded<V(!new)>(c: Series<V>, s: Net<V>, events: seq<Event>, t: Net<V>)
    requires SameSchedules(c) && Begins(c, s) && Goes(c, s, events, t)
    ensures |t.turn| == |c.Sched()| && |events| <= AllAllowed(c.Sched(), t.turn)
  {
    FreshBalance(c.Sched(), s.now.ranks, s.turn);
    GoesUsesUp(c, s, events, t);
    LeftBound(c.Sched(), t.now.ranks);
  }
}
