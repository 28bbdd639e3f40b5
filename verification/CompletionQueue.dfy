/** What a program finds in its completion queue: the packets of the receives that completed, one for each, in the order in
    which they completed. */
module CompletionQueue {
  import opened Wrappers
  import opened PacketPool
  import opened PacketPlaces
  import opened Network
  import opened NetworkRuns
  import M = MatchTable
  import G = Messaging
  import O = MessageOrder

  // ----- Completions, read off the endpoint -----

  function Completions(e: G.State, r: nat): nat {
    if r < |e.reqs| then e.reqs[r].completions else 0
  }

  /** Receive r completes between two states of an endpoint. */
  predicate Finishes(e: G.State, e': G.State, r: nat) {
    Completions(e', r) > Completions(e, r)
  }

  /** The packet in which the message of receive r is: where its status says, or, if it was still on the wire, the one it
      arrives in. */
  function CarriedIn(e: G.State, e': G.State, r: nat, arriving: nat): nat {
    if r < |e'.reqs| && e'.reqs[r].match_.Some? && e'.reqs[r].match_.value < |e.status| then
      match e.status[e'.reqs[r].match_.value].stage
      case InTable(p) => p
      case Serving(p) => p
      case Wire => arriving
      case Done => 0
    else 0
  }

  /** The packet of the receive that completes, if one does. */
  ghost function Finished(e: G.State, e': G.State, arriving: nat): seq<nat> {
    if exists r: nat :: Finishes(e, e', r) then
      var r: nat :| Finishes(e, e', r);
      [CarriedIn(e, e', r, arriving)]
    else []
  }

  ghost predicate NoneFinishes(e: G.State, e': G.State) {
    forall r: nat :: !Finishes(e, e', r)
  }

  /** Receive r completes, with packet p, and no other does. */
  ghost predicate OneFinishes(e: G.State, e': G.State, arriving: nat, r: nat, p: nat) {
    && (forall q: nat :: Finishes(e, e', q) <==> q == r)
    && CarriedIn(e, e', r, arriving) == p
  }

  lemma FinishedNone(e: G.State, e': G.State, arriving: nat)
    requires NoneFinishes(e, e')
    ensures Finished(e, e', arriving) == []
  {
  }

  lemma FinishedOne(e: G.State, e': G.State, arriving: nat, r: nat, p: nat)
    requires OneFinishes(e, e', arriving, r, p)
    ensures Finished(e, e', arriving) == [p]
  {
    assert Finishes(e, e', r);
  }

  // ----- What completes, event by event -----

  lemma MeetFinishes(c: Setup, e: G.State, s: G.State, r: nat, p: nat, m: nat, b: G.Bytes)
    requires m < |s.sends| == |s.status| && r < |s.reqs| && |e.reqs| <= |s.reqs|
    requires forall q: nat :: Completions(s, q) == Completions(e, q)
    ensures var e' := G.Meet(c.config, s, r, p, m, b);
      if G.Eager(c.config, s.sends[m]) then
        (forall q: nat :: Finishes(e, e', q) <==> q == r) && r < |e'.reqs| && e'.reqs[r].match_ == Some(m)
      else NoneFinishes(e, e')
  {
  }

  /** A receive just posted meets message m in packet p. */
  lemma PostedMeets(c: Setup, e: G.State, src: nat, tag: nat, p: nat, m: nat, b: G.Bytes)
    requires m < |e.sends| == |e.status| && e.status[m].stage == G.InTable(p)
    ensures var e' := G.Meet(c.config, O.Recorded(e, src, tag), |e.reqs|, p, m, b);
      if G.Eager(c.config, e.sends[m]) then OneFinishes(e, e', 0, |e.reqs|, p) else NoneFinishes(e, e')
  {
    MeetFinishes(c, e, O.Recorded(e, src, tag), |e.reqs|, p, m, b);
  }

  lemma PostedWaits(e: G.State, src: nat, tag: nat)
    ensures NoneFinishes(e, O.Recorded(e, src, tag))
  {
  }

  lemma RecvWaits(c: Setup, e: G.State, src: nat, tag: nat)
    requires O.Inv(c.config, e) && G.Address(src, tag) && G.Lookup(c.config, e, G.RecvPost(e, src, tag)).inserted
    ensures NoneFinishes(e, G.StepRecv(c.config, e, src, tag))
  {
    PostedWaits(e, src, tag);
    O.RecvFinds(c.config, e, src, tag);
  }

  lemma RecvFinishes(c: Setup, e: G.State, src: nat, tag: nat)
    requires O.Inv(c.config, e) && G.Address(src, tag) && !G.Lookup(c.config, e, G.RecvPost(e, src, tag)).inserted
    ensures var (e', item) := (G.StepRecv(c.config, e, src, tag), G.Lookup(c.config, e, G.RecvPost(e, src, tag)).value);
      && item.PktItem? && item.msg < |e.sends|
      && if G.Eager(c.config, e.sends[item.msg]) then OneFinishes(e, e', 0, |e.reqs|, item.packet) else NoneFinishes(e, e')
  {
    O.RecvFinds(c.config, e, src, tag);
    var item := O.Waiters(c.config, e.posts, src, tag, M.Server)[0];
    PostedMeets(c, e, src, tag, item.packet, item.msg, G.BytesIn(e.packets, item.packet));
  }

  /** A message that arrives in packet p meets receive r. */
  lemma LandedMeets(c: Setup, e: G.State, src: nat, p: nat, r: nat, m: nat, b: G.Bytes)
    requires G.WireOf(e, src) != [] && m < |e.sends| == |e.status| && e.status[m].stage == G.Wire && r < |e.reqs|
    ensures var e' := G.Meet(c.config, O.Landed(e, src, p), r, p, m, b);
      if G.Eager(c.config, e.sends[m]) then OneFinishes(e, e', p, r, p) else NoneFinishes(e, e')
  {
    MeetFinishes(c, e, O.Landed(e, src, p), r, p, m, b);
  }

  lemma ArriveWaits(c: Setup, e: G.State, src: nat, p: nat)
    requires O.Inv(c.config, e) && G.Enabled(c.config, e, G.Arrive(src, p))
    requires G.Lookup(c.config, e, G.ArrivePost(e, src, p)).inserted
    ensures NoneFinishes(e, G.StepArrive(c.config, e, src, p))
  {
    O.ArriveFinds(c.config, e, src, p);
    O.ArriveLooksUp(c.config, e, src, p);
  }

  lemma ArriveFinishes(c: Setup, e: G.State, src: nat, p: nat) returns (r: nat)
    requires O.Inv(c.config, e) && G.Enabled(c.config, e, G.Arrive(src, p))
    requires !G.Lookup(c.config, e, G.ArrivePost(e, src, p)).inserted
    ensures var (e', m) := (G.StepArrive(c.config, e, src, p), G.WireOf(e, src)[0].msg);
      && m < |e.sends|
      && if G.Eager(c.config, e.sends[m]) then OneFinishes(e, e', p, r, p) else NoneFinishes(e, e')
  {
    O.ArriveFinds(c.config, e, src, p);
    O.ArriveLooksUp(c.config, e, src, p);
    var w := G.WireOf(e, src)[0];
    r := O.Waiters(c.config, e.posts, src, w.tag, M.Client)[0].req;
    LandedMeets(c, e, src, p, r, w.msg, G.InRoom(c.config, w.payload));
  }

  lemma DropFinishes(e: G.State, s: G.State, p: nat)
    requires G.Refers(s, p) && |s.reqs| == |e.reqs| && forall q: nat :: Completions(s, q) == Completions(e, q)
    ensures var e' := G.Drop(s, p);
      if s.packets[p].ref == 1 then
        (forall q: nat :: Finishes(e, e', q) <==> q == s.packets[p].req) && e'.reqs[s.packets[p].req].match_ == s.reqs[s.packets[p].req].match_
      else NoneFinishes(e, e')
  {
  }

  /** The packet of a rendezvous is where its message's status says. */
  lemma ServedStatus(c: Setup, e: G.State, p: nat)
    requires G.Core(c.config, e) && p in e.packets && e.packets[p].Served?
    ensures G.Refers(e, p) && e.packets[p].msg < |e.status| && e.status[e.packets[p].msg].stage == G.Serving(p)
    ensures e.reqs[e.packets[p].req].match_ == Some(e.packets[p].msg)
  {
    assert G.PacketOk(e.packets[p], p, e.sends, e.status, e.reqs, e.rtrs, e.rdmas, e.regs);
  }

  lemma RtrSentFinishes(c: Setup, e: G.State, p: nat)
    requires O.Inv(c.config, e) && G.Enabled(c.config, e, G.RtrSent(p))
    ensures G.Refers(e, p)
    ensures var e' := G.StepRtrSent(e, p);
      if e.packets[p].ref == 1 then OneFinishes(e, e', 0, e.packets[p].req, p) else NoneFinishes(e, e')
  {
    ServedStatus(c, e, p);
    DropFinishes(e, e.(packets := e.packets[p := e.packets[p].(sending := false)]), p);
  }

  lemma RdmaDrops(c: Setup, e: G.State, p: nat)
    requires G.Refers(e, p) && p in e.rdmas && e.rdmas[p].target < |e.reqs|
    requires e.packets[p].msg < |e.status| && e.status[e.packets[p].msg].stage == G.Serving(p)
    requires e.reqs[e.packets[p].req].match_ == Some(e.packets[p].msg)
    ensures var e' := G.Step(c.config, e, G.RdmaArrive(p));
      if e.packets[p].ref == 1 then OneFinishes(e, e', 0, e.packets[p].req, p) else NoneFinishes(e, e')
  {
    DropFinishes(e, G.Written(e, p), p);
  }

  lemma RdmaFinishes(c: Setup, e: G.State, p: nat)
    requires O.Inv(c.config, e) && p in e.rdmas
    ensures p in e.packets && e.packets[p].Served?
    ensures var e' := G.Step(c.config, e, G.RdmaArrive(p));
      if e.packets[p].ref == 1 then OneFinishes(e, e', 0, e.packets[p].req, p) else NoneFinishes(e, e')
  {
    G.InFlightServed(c.config, e, p);
    ServedStatus(c, e, p);
    RdmaDrops(c, e, p);
  }

  // ----- What is pushed, event by event -----

  /** Which packet a message arrives in at rank i with an event. */
  function Arriving(s: Net, e: Event, i: nat): nat
    requires WellFormed(s) && Enabled(s, e)
  {
    if e.Arrive? && e.rank == i then s.devs[i].posted[e.slot] else 0
  }

  /** The packet of the receive that completes at rank i with an event, if one does. */
  ghost function FinishedAt(c: Setup, s: Net, e: Event, i: nat): seq<nat>
    requires WellFormed(s) && Enabled(s, e)
  {
    var t := Step(c, s, e);
    if i < |s.ends| && i < |t.ends| then Finished(s.ends[i], t.ends[i], Arriving(s, e, i)) else []
  }

  /** What rank i finds in its hands when it pops. */
  function PoppedAt(c: Setup, s: Net, e: Event, i: nat): seq<nat>
    requires WellFormed(s) && Enabled(s, e)
  {
    var t := Step(c, s, e);
    if e == CqPop(i) && i < |s.devs| && i < |t.devs| && |s.devs[i].user| <= |t.devs[i].user| then
      t.devs[i].user[|s.devs[i].user|..]
    else []
  }

  /** At most one receive completes with an event.  The queue before it and what completes with it are what is popped with
      it and the queue after it; with any other kind of completion nothing is added. */
  ghost predicate Balanced(c: Setup, s: Net, e: Event, i: nat)
    requires WellFormed(s) && Enabled(s, e)
  {
    var t := Step(c, s, e);
    && |t.devs| == |t.ends| == |s.ends| && i < |s.ends|
    && (forall q: nat, r: nat :: Finishes(s.ends[i], t.ends[i], q) && Finishes(s.ends[i], t.ends[i], r) ==> q == r)
    && if c.completion.Queue? then s.devs[i].queue + FinishedAt(c, s, e, i) == PoppedAt(c, s, e, i) + t.devs[i].queue
       else s.devs[i].queue == PoppedAt(c, s, e, i) + t.devs[i].queue
  }

  /** Nothing completes, and the queue stays. */
  lemma Quiet(c: Setup, s: Net, e: Event, i: nat)
    requires WellFormed(s) && Enabled(s, e) && !e.CqPop? && i < |s.ends|
    requires |Step(c, s, e).ends| == |Step(c, s, e).devs| == |s.ends|
    requires NoneFinishes(s.ends[i], Step(c, s, e).ends[i]) && Step(c, s, e).devs[i].queue == s.devs[i].queue
    ensures Balanced(c, s, e, i)
  {
    FinishedNone(s.ends[i], Step(c, s, e).ends[i], Arriving(s, e, i));
  }

  /** One receive completes, and its packet is dispatched. */
  lemma Pushed(c: Setup, s: Net, e: Event, i: nat, r: nat, p: nat)
    requires WellFormed(s) && Enabled(s, e) && !e.CqPop? && i < |s.ends|
    requires |Step(c, s, e).ends| == |Step(c, s, e).devs| == |s.ends|
    requires OneFinishes(s.ends[i], Step(c, s, e).ends[i], Arriving(s, e, i), r, p)
    requires Step(c, s, e).devs[i].queue == if c.completion.Queue? then s.devs[i].queue + [p] else s.devs[i].queue
    ensures Balanced(c, s, e, i)
  {
    FinishedOne(s.ends[i], Step(c, s, e).ends[i], Arriving(s, e, i), r, p);
  }

  lemma DispatchQueue(ce: Completion, d: Device, w: nat, p: nat)
    requires PoolsOk(d.pools)
    ensures Dispatch(ce, d, w, p).queue == if ce.Queue? then d.queue + [p] else d.queue
  {
  }

  lemma CollectQueue(c: Setup, d: Device, w: nat, p: nat)
    requires PoolsOk(d.pools)
    ensures Collect(c, d, w, p).queue ==
      if c.completion.Queue? && !CtxOf(d, p).proto.RtsHeader? then d.queue + [p] else d.queue
  {
  }

  lemma RecvBalanced(c: Setup, s: Net, e: Event)
    requires Inv(c, s) && WellFormed(s) && e.Recv? && Enabled(s, e)
    ensures Balanced(c, s, e, e.rank)
  {
    var d, end := s.devs[e.rank], s.ends[e.rank];
    assert EndOk(c, end, |s.ends|) && DevOk(c, d, end);
    RecvShape(c, s, e);
    var out := G.Lookup(c.config, end, G.RecvPost(end, e.src, e.tag));
    if out.inserted {
      RecvWaits(c, end, e.src, e.tag);
      Quiet(c, s, e, e.rank);
    } else {
      RecvFinishes(c, end, e.src, e.tag);
      RecvEffect(c, end, e.src, e.tag);
      assert Shelved(c.config, CtxOf(d, out.value.packet).proto, end.packets[out.value.packet], end.sends);
      CollectQueue(c, d, e.worker, out.value.packet);
      if G.Eager(c.config, end.sends[out.value.msg]) { Pushed(c, s, e, e.rank, |end.reqs|, out.value.packet); }
      else { Quiet(c, s, e, e.rank); }
    }
  }

  lemma ArriveShape(c: Setup, s: Net, e: Event)
    requires WellFormed(s) && e.Arrive? && Enabled(s, e)
    ensures var t, d, end := StepArrive(c, s, e), s.devs[e.rank], s.ends[e.rank];
      var p := d.posted[e.slot];
      var u := SetProto(d.(posted := Remove(d.posted, e.slot)), p, ArrivingHeader(c, end, e.src));
      && |t.devs| == |t.ends| == |s.ends| && t.ends[e.rank] == G.StepArrive(c.config, end, e.src, p)
      && u.queue == d.queue && u.pools == d.pools
      && CtxOf(u, p).proto == ArrivingHeader(c, end, e.src)
      && t.devs[e.rank] == if G.Lookup(c.config, end, G.ArrivePost(end, e.src, p)).inserted then u else Collect(c, u, e.worker, p)
  {
  }

  lemma ArriveBalanced(c: Setup, s: Net, e: Event)
    requires Inv(c, s) && WellFormed(s) && e.Arrive? && Enabled(s, e)
    ensures Balanced(c, s, e, e.rank)
  {
    var d, end := s.devs[e.rank], s.ends[e.rank];
    var p := d.posted[e.slot];
    assert EndOk(c, end, |s.ends|);
    ArrivalIsFresh(c, s, e.rank, e.slot);
    ArriveShape(c, s, e);
    if G.Lookup(c.config, end, G.ArrivePost(end, e.src, p)).inserted {
      ArriveWaits(c, end, e.src, p);
      Quiet(c, s, e, e.rank);
    } else {
      var r := ArriveFinishes(c, end, e.src, p);
      CollectQueue(c, SetProto(d.(posted := Remove(d.posted, e.slot)), p, ArrivingHeader(c, end, e.src)), e.worker, p);
      if G.Eager(c.config, end.sends[G.WireOf(end, e.src)[0].msg]) { Pushed(c, s, e, e.rank, r, p); }
      else { Quiet(c, s, e, e.rank); }
    }
  }

  lemma RtrSentBalanced(c: Setup, s: Net, e: Event)
    requires Inv(c, s) && WellFormed(s) && e.SendDone? && Enabled(s, e)
    requires CtxOf(s.devs[e.rank], s.devs[e.rank].sends[e.slot]).proto.RtrHeader?
    ensures Balanced(c, s, e, e.rank)
  {
    var d, end := s.devs[e.rank], s.ends[e.rank];
    var p := d.sends[e.slot];
    assert EndOk(c, end, |s.ends|) && DevOk(c, d, end);
    RtrIsSending(c, d, end, e.slot);
    RtrSentShape(c, s, e);
    RtrSentFinishes(c, end, p);
    DispatchQueue(c.completion, d.(sends := Remove(d.sends, e.slot)), e.worker, p);
    if end.packets[p].ref == 1 { Pushed(c, s, e, e.rank, end.packets[p].req, p); } else { Quiet(c, s, e, e.rank); }
  }

  lemma RdmaShape(c: Setup, s: Net, e: Event)
    requires WellFormed(s) && e.RdmaArrive? && Enabled(s, e)
    ensures var t, d, end := StepRdmaArrive(c, s, e), s.devs[e.rank], s.ends[e.rank];
      && |t.devs| == |t.ends| == |s.ends| && t.ends[e.rank] == G.Step(c.config, end, G.RdmaArrive(e.packet))
      && t.devs[e.rank].queue == Unref(c, end, d, e.worker, e.packet).queue
  {
  }

  lemma UnrefQueue(c: Setup, e: G.State, d: Device, w: nat, p: nat)
    requires PoolsOk(d.pools) && p in e.packets && e.packets[p].Served?
    ensures Unref(c, e, d, w, p).queue ==
      if e.packets[p].ref == 1 && c.completion.Queue? then d.queue + [p] else d.queue
  {
  }

  lemma RdmaBalanced(c: Setup, s: Net, e: Event)
    requires Inv(c, s) && WellFormed(s) && e.RdmaArrive? && Enabled(s, e)
    ensures Balanced(c, s, e, e.rank)
  {
    assert EndOk(c, s.ends[e.rank], |s.ends|);
    RdmaFinishes(c, s.ends[e.rank], e.packet);
    RdmaPushes(c, s, e);
  }

  lemma RdmaPushes(c: Setup, s: Net, e: Event)
    requires WellFormed(s) && e.RdmaArrive? && Enabled(s, e)
    requires var end, p := s.ends[e.rank], e.packet;
      && p in end.packets && end.packets[p].Served?
      && var end' := G.Step(c.config, end, G.RdmaArrive(p));
         if end.packets[p].ref == 1 then OneFinishes(end, end', 0, end.packets[p].req, p) else NoneFinishes(end, end')
    ensures Balanced(c, s, e, e.rank)
  {
    var end, p := s.ends[e.rank], e.packet;
    RdmaShape(c, s, e);
    UnrefQueue(c, end, s.devs[e.rank], e.worker, p);
    if end.packets[p].ref == 1 { Pushed(c, s, e, e.rank, end.packets[p].req, p); } else { Quiet(c, s, e, e.rank); }
  }

  // ----- Events with which nothing completes -----

  lemma SameEndNone(e: G.State, e': G.State)
    requires e'.reqs == e.reqs
    ensures NoneFinishes(e, e')
  {
  }

  lemma SendBalanced(c: Setup, s: Net, e: Event, i: nat)
    requires WellFormed(s) && e.Send? && Enabled(s, e) && i < |s.ends|
    ensures Balanced(c, s, e, i)
  {
    SendShape(c, s, e, i);
    SameEndNone(s.ends[i], StepSend(c, s, e).ends[i]);
    Quiet(c, s, e, i);
  }

  lemma PostBalanced(c: Setup, s: Net, e: Event, i: nat)
    requires WellFormed(s) && e.PostRecv? && Enabled(s, e) && i < |s.ends|
    ensures Balanced(c, s, e, i)
  {
    SameEndNone(s.ends[i], s.ends[i]);
    Quiet(c, s, e, i);
  }

  lemma RtrArriveBalanced(c: Setup, s: Net, e: Event, i: nat)
    requires WellFormed(s) && e.RtrArrive? && Enabled(s, e) && i < |s.ends|
    ensures Balanced(c, s, e, i)
  {
    RtrShape(c, s, e);
    SameEndNone(s.ends[i], StepRtrArrive(c, s, e).ends[i]);
    Quiet(c, s, e, i);
  }

  lemma SentShape(c: Setup, s: Net, e: Event, i: nat)
    requires WellFormed(s) && e.SendDone? && Enabled(s, e) && i < |s.ends|
    requires !CtxOf(s.devs[e.rank], s.devs[e.rank].sends[e.slot]).proto.RtrHeader?
    ensures var t := StepSent(c, s, e);
      && |t.devs| == |t.ends| == |s.ends| && t.devs[i].queue == s.devs[i].queue && t.ends[i].reqs == s.ends[i].reqs
  {
  }

  lemma SentBalanced(c: Setup, s: Net, e: Event, i: nat)
    requires WellFormed(s) && e.SendDone? && Enabled(s, e) && i < |s.ends|
    requires !CtxOf(s.devs[e.rank], s.devs[e.rank].sends[e.slot]).proto.RtrHeader?
    ensures Balanced(c, s, e, i)
  {
    SentShape(c, s, e, i);
    SameEndNone(s.ends[i], StepSent(c, s, e).ends[i]);
    Quiet(c, s, e, i);
  }

  /** Pops take from the queue what they put into the program's hands. */
  lemma UserBalanced(c: Setup, s: Net, e: Event, i: nat)
    requires WellFormed(s) && (e.CqPop? || e.ReqFree?) && Enabled(s, e) && i < |s.ends|
    ensures Balanced(c, s, e, i)
  {
    SameEndNone(s.ends[i], s.ends[i]);
    if e == CqPop(i) {
      FinishedNone(s.ends[i], s.ends[i], 0);
      var d := s.devs[i];
      assert Step(c, s, e).devs[i].user[|d.user|..] == [d.queue[0]];
      assert d.queue == [d.queue[0]] + d.queue[1..];
      assert d.queue + [] == d.queue;
    } else if e.CqPop? {
      FinishedNone(s.ends[i], s.ends[i], 0);
      assert s.devs[i].queue + [] == [] + s.devs[i].queue;
    } else {
      Quiet(c, s, e, i);
    }
  }

  /** Events at one rank change no other. */
  lemma ElsewhereBalanced(c: Setup, s: Net, e: Event, i: nat)
    requires Inv(c, s) && WellFormed(s) && Enabled(s, e) && i < |s.ends| && !e.Send? && i != e.rank
    requires e.Recv? || e.Arrive? || e.RdmaArrive?
             || (e.SendDone? && CtxOf(s.devs[e.rank], s.devs[e.rank].sends[e.slot]).proto.RtrHeader?)
    ensures Balanced(c, s, e, i)
  {
    ElsewhereSame(c, s, e, i);
    SameEndNone(s.ends[i], s.ends[i]);
    Quiet(c, s, e, i);
  }

  lemma ElsewhereSame(c: Setup, s: Net, e: Event, i: nat)
    requires WellFormed(s) && Enabled(s, e) && i < |s.ends| && !e.Send? && i != e.rank
    requires e.Recv? || e.Arrive? || e.RdmaArrive?
             || (e.SendDone? && CtxOf(s.devs[e.rank], s.devs[e.rank].sends[e.slot]).proto.RtrHeader?)
    ensures var t := Step(c, s, e); |t.ends| == |t.devs| == |s.ends| && t.ends[i] == s.ends[i] && t.devs[i] == s.devs[i]
  {
  }

  // ----- Every event -----

  lemma StepBalanced(c: Setup, s: Net, e: Event, i: nat)
    requires Inv(c, s) && WellFormed(s) && Enabled(s, e) && i < |s.ends|
    ensures Balanced(c, s, e, i)
  {
    if e.Send? { SendBalanced(c, s, e, i); }
    else if e.PostRecv? { PostBalanced(c, s, e, i); }
    else if e.RtrArrive? { RtrArriveBalanced(c, s, e, i); }
    else if e.CqPop? || e.ReqFree? { UserBalanced(c, s, e, i); }
    else if e.SendDone? && !CtxOf(s.devs[e.rank], s.devs[e.rank].sends[e.slot]).proto.RtrHeader? { SentBalanced(c, s, e, i); }
    else if i != e.rank { ElsewhereBalanced(c, s, e, i); }
    else if e.Recv? { RecvBalanced(c, s, e); }
    else if e.Arrive? { ArriveBalanced(c, s, e); }
    else if e.RdmaArrive? { RdmaBalanced(c, s, e); }
    else { RtrSentBalanced(c, s, e); }
  }

  // ----- Runs -----

  /** In every run at most one receive of a rank completes with an event. */
  lemma OneCompletion(c: Setup, n: nat, opener: nat, events: seq<Event>, e: Event, i: nat, q: nat, r: nat)
    requires n <= G.RANKS && opener < MAX_POOLS && AllFit(c, events) && i < n
    ensures var s := Reached(c, n, opener, events);
      && WellFormed(s) && |s.ends| == n
      && (Enabled(s, e) ==>
            var t := Step(c, s, e);
            |t.ends| == n && (Finishes(s.ends[i], t.ends[i], q) && Finishes(s.ends[i], t.ends[i], r) ==> q == r))
  {
    ReachedInv(c, n, opener, events);
    var s := Reached(c, n, opener, events);
    if Enabled(s, e) { StepBalanced(c, s, e, i); }
  }

  /** The packets of the receives that complete at rank i, in order. */
  ghost function FinishLog(c: Setup, s: Net, events: seq<Event>, i: nat): seq<nat>
    decreases |events|
  {
    if events == [] || !WellFormed(s) then []
    else if Enabled(s, events[0]) then
      FinishedAt(c, s, events[0], i) + FinishLog(c, Step(c, s, events[0]), events[1..], i)
    else FinishLog(c, s, events[1..], i)
  }

  /** The packets that rank i pops, in order. */
  ghost function PopLog(c: Setup, s: Net, events: seq<Event>, i: nat): seq<nat>
    decreases |events|
  {
    if events == [] || !WellFormed(s) then []
    else if Enabled(s, events[0]) then
      PoppedAt(c, s, events[0], i) + PopLog(c, Step(c, s, events[0]), events[1..], i)
    else PopLog(c, s, events[1..], i)
  }

  /** What goes through the queue: completions with a queue, nothing without one. */
  ghost function Through(c: Setup, s: Net, events: seq<Event>, i: nat): seq<nat> {
    if c.completion.Queue? then FinishLog(c, s, events, i) else []
  }

  lemma Chained(queue: seq<nat>, done: seq<nat>, popped: seq<nat>, queue': seq<nat>, log: seq<nat>, pops: seq<nat>,
                last: seq<nat>)
    requires queue + done == popped + queue' && queue' + log == pops + last
    ensures queue + (done + log) == (popped + pops) + last
  {
    calc {
      queue + (done + log);
      (queue + done) + log;
      (popped + queue') + log;
      popped + (queue' + log);
      popped + (pops + last);
      (popped + pops) + last;
    }
  }

  lemma {:induction false} RunBalanced(c: Setup, s: Net, events: seq<Event>, i: nat)
    requires Inv(c, s) && AllFit(c, events) && i < |s.ends|
    ensures i < |Run(c, s, events).devs|
    ensures s.devs[i].queue + Through(c, s, events, i) == PopLog(c, s, events, i) + Run(c, s, events).devs[i].queue
    decreases |events|
  {
    InvWellFormed(c, s);
    if events == [] {
      assert s.devs[i].queue + [] == [] + s.devs[i].queue;
    } else if !Enabled(s, events[0]) {
      RunBalanced(c, s, events[1..], i);
    } else {
      var t := Step(c, s, events[0]);
      StepKeepsInv(c, s, events[0]);
      StepSize(c, s, events[0]);
      StepBalanced(c, s, events[0], i);
      RunBalanced(c, t, events[1..], i);
      Chained(s.devs[i].queue, if c.completion.Queue? then FinishedAt(c, s, events[0], i) else [], PoppedAt(c, s, events[0], i),
              t.devs[i].queue, Through(c, t, events[1..], i), PopLog(c, t, events[1..], i),
              Run(c, s, events).devs[i].queue);
    }
  }

  /** In every run, at every rank with a completion queue: what was popped so far and then what is still queued are the
      packets of the receives that completed, one for each, in the order in which they completed.  With any other kind of
      completion nothing is ever queued or popped. */
  lemma CompletionsInOrder(c: Setup, n: nat, opener: nat, events: seq<Event>, i: nat)
    requires n <= G.RANKS && opener < MAX_POOLS && AllFit(c, events) && i < n
    ensures var s, t := Initial(n, opener), Reached(c, n, opener, events);
      && |t.devs| == n
      && (c.completion.Queue? ==> PopLog(c, s, events, i) + t.devs[i].queue == FinishLog(c, s, events, i))
      && (!c.completion.Queue? ==> PopLog(c, s, events, i) == [] && t.devs[i].queue == [])
  {
    InitialInv(c, n, opener);
    ReachedInv(c, n, opener, events);
    var s := Initial(n, opener);
    RunBalanced(c, s, events, i);
    assert s.devs[i].queue == [];
    assert [] + Through(c, s, events, i) == Through(c, s, events, i);
  }
}
