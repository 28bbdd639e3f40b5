/** What every run of the network keeps: each packet of each device is in one place, however messages, rendezvous and
    completions interleave. */
module NetworkRuns {
  import opened Wrappers
  import opened PacketPool
  import opened PacketPlaces
  import opened Network
  import M = MatchTable
  import G = Messaging
  import H = MessageChannel
  import O = MessageOrder
  import R = RingBuffer

  // ----- What a step of an endpoint does to its packets -----

  /** Messages are only added, and callbacks stay due. */
  ghost predicate Grows(e: G.State, e': G.State) {
    e.sends <= e'.sends && e.longs <= e'.longs
  }

  lemma EndStep(c: Setup, e: G.State, ev: G.Event)
    requires O.Inv(c.config, e) && G.Enabled(c.config, e, ev)
    ensures O.Inv(c.config, G.Step(c.config, e, ev))
  {
    O.StepKeepsInv(c.config, e, ev);
  }

  lemma ArriveEffect(c: Setup, e: G.State, src: nat, p: nat)
    requires O.Inv(c.config, e) && G.Enabled(c.config, e, G.Arrive(src, p))
    ensures var e' := G.StepArrive(c.config, e, src, p);
      var out := G.Lookup(c.config, e, G.ArrivePost(e, src, p));
      var m := G.WireOf(e, src)[0].msg;
      && m < |e.sends| && e'.sends == e.sends && e'.longs == e.longs && e'.recvs == e.recvs
      && (out.inserted ==> e'.packets == e.packets[p := G.Waiting(m, G.InRoom(c.config, G.WireOf(e, src)[0].payload))])
      && (!out.inserted && G.Eager(c.config, e.sends[m]) ==> e'.packets == e.packets - {p})
      && (!out.inserted && !G.Eager(c.config, e.sends[m]) ==>
            p in e'.packets && Sending(e'.packets, p) && e'.packets == e.packets[p := e'.packets[p]])
  {
    O.ArriveFinds(c.config, e, src, p);
    O.ArriveLooksUp(c.config, e, src, p);
  }

  lemma RecvEffect(c: Setup, e: G.State, src: nat, tag: nat)
    requires O.Inv(c.config, e) && G.Address(src, tag)
    ensures var e' := G.StepRecv(c.config, e, src, tag);
      var out := G.Lookup(c.config, e, G.RecvPost(e, src, tag));
      && e'.sends == e.sends && e'.longs == e.longs && e'.recvs == e.recvs + [G.Recv(src, tag)]
      && (out.inserted ==> e'.packets == e.packets)
      && (!out.inserted ==>
            && out.value.PktItem? && out.value.msg < |e.sends|
            && out.value.packet in e.packets && e.packets[out.value.packet].Waiting?
            && e.packets[out.value.packet].msg == out.value.msg
            && var p := out.value.packet;
               if G.Eager(c.config, e.sends[out.value.msg]) then e'.packets == e.packets - {p}
               else p in e'.packets && Sending(e'.packets, p) && e'.packets == e.packets[p := e'.packets[p]])
  {
    O.RecvFinds(c.config, e, src, tag);
    var q := O.Waiters(c.config, e.posts, src, tag, M.Server);
    if q != [] { O.ShelvedMessage(c.config, e, q[0], src, tag); }
  }

  lemma RtrSentFrame(c: Setup, e: G.State, p: nat)
    requires G.Refers(e, p)
    ensures var e' := G.Step(c.config, e, G.RtrSent(p));
      && e'.sends == e.sends && e'.longs == e.longs && e'.recvs == e.recvs
      && if e.packets[p].ref == 1 then e'.packets == e.packets - {p}
         else p in e'.packets && e'.packets[p].Served? && !e'.packets[p].sending
              && e'.packets == e.packets[p := e'.packets[p]]
  {
    assert e.packets[p := e.packets[p].(sending := false)] - {p} == e.packets - {p};
  }

  lemma ServedRefers(c: Setup, e: G.State, p: nat)
    requires G.Core(c.config, e) && p in e.packets && e.packets[p].Served?
    ensures G.Refers(e, p)
  {
    assert G.PacketOk(e.packets[p], p, e.sends, e.status, e.reqs, e.rtrs, e.rdmas, e.regs);
  }

  lemma RtrSentEffect(c: Setup, e: G.State, p: nat)
    requires O.Inv(c.config, e) && Sending(e.packets, p)
    ensures G.Enabled(c.config, e, G.RtrSent(p))
    ensures var e' := G.Step(c.config, e, G.RtrSent(p));
      && e'.sends == e.sends && e'.longs == e.longs && e'.recvs == e.recvs
      && if e.packets[p].ref == 1 then e'.packets == e.packets - {p}
         else p in e'.packets && e'.packets[p].Served? && !e'.packets[p].sending
              && e'.packets == e.packets[p := e'.packets[p]]
  {
    ServedRefers(c, e, p);
    RtrSentFrame(c, e, p);
  }

  lemma RdmaFrame(c: Setup, e: G.State, p: nat)
    requires G.Refers(e, p) && p in e.rdmas && e.rdmas[p].target < |e.reqs|
    ensures var e' := G.Step(c.config, e, G.RdmaArrive(p));
      && e'.sends == e.sends && e'.longs == e.longs && e'.recvs == e.recvs
      && e'.packets == if e.packets[p].ref == 1 then e.packets - {p}
                       else e.packets[p := e.packets[p].(ref := e.packets[p].ref - 1)]
  {
  }

  /** With one reference left the RTR has been sent. */
  lemma RdmaPacket(c: Setup, e: G.State, p: nat)
    requires G.Core(c.config, e) && p in e.rdmas
    ensures p in e.packets && e.packets[p].Served? && e.rdmas[p].target < |e.reqs|
    ensures e.packets[p].ref == if Sending(e.packets, p) then 2 else 1
  {
    G.InFlightServed(c.config, e, p);
  }

  lemma RdmaEffect(c: Setup, e: G.State, p: nat)
    requires O.Inv(c.config, e) && p in e.rdmas
    ensures p in e.packets && e.packets[p].Served?
    ensures var e' := G.Step(c.config, e, G.RdmaArrive(p));
      && e'.sends == e.sends && e'.longs == e.longs && e'.recvs == e.recvs
      && if e.packets[p].ref == 1 then Resting(e.packets, p) && e'.packets == e.packets - {p}
         else p in e'.packets && Sending(e.packets, p) && Sending(e'.packets, p)
              && e'.packets == e.packets[p := e'.packets[p]]
  {
    RdmaPacket(c, e, p);
    ServedRefers(c, e, p);
    RdmaFrame(c, e, p);
  }

  /** An RTR under way echoes the message that its receive is matched with, whose callback is not due yet. */
  lemma RtrEcho(c: Setup, e: G.State, p: nat)
    requires G.Core(c.config, e) && p in e.rtrs
    ensures e.rtrs[p].target < |e.reqs| && e.reqs[e.rtrs[p].target].match_ == Some(e.rtrs[p].cb)
    ensures e.rtrs[p].cb < |e.sends| && e.rtrs[p].cb !in e.longs
  {
    G.InFlightServed(c.config, e, p);
  }

  /** So it is sent to the rank that the message came from. */
  lemma RtrToSource(c: Setup, e: G.State, p: nat)
    requires O.Inv(c.config, e) && p in e.rtrs && e.rtrs[p].cb < |e.sends|
    requires e.rtrs[p].target < |e.reqs| && e.reqs[e.rtrs[p].target].match_ == Some(e.rtrs[p].cb)
    ensures e.rtrs[p].target < |e.recvs| && e.sends[e.rtrs[p].cb].src == Sender(e, p)
  {
    var r := e.rtrs[p].target;
    O.MatchedInOrder(c.config, e, r);
    IdsFrom(e.sends, e.recvs[r].src, e.recvs[r].tag, O.Rank(e.recvs, e.recvs[r].src, e.recvs[r].tag, r));
  }

  lemma RtrFrame(c: Setup, e: G.State, p: nat)
    requires |e.sends| == |e.status| && p in e.rtrs && e.rtrs[p].cb < |e.sends|
    ensures var e' := G.Step(c.config, e, G.RtrArrive(p));
      e'.sends == e.sends && e'.recvs == e.recvs && e'.packets == e.packets && e'.longs == e.longs + {e.rtrs[p].cb}
  {
  }

  lemma RtrEffect(c: Setup, e: G.State, p: nat)
    requires O.Inv(c.config, e) && p in e.rtrs
    ensures e.rtrs[p].target < |e.recvs| && e.rtrs[p].cb < |e.sends| && e.rtrs[p].cb !in e.longs
    ensures e.sends[e.rtrs[p].cb].src == Sender(e, p)
    ensures var e' := G.Step(c.config, e, G.RtrArrive(p));
      e'.sends == e.sends && e'.recvs == e.recvs && e'.packets == e.packets && e'.longs == e.longs + {e.rtrs[p].cb}
  {
    RtrEcho(c, e, p);
    RtrToSource(c, e, p);
    assert |e.sends| == |e.status|;
    RtrFrame(c, e, p);
  }

  lemma {:induction false} IdsFrom(sends: seq<G.Send>, src: nat, tag: nat, k: nat)
    requires k < |O.Ids(sends, src, tag)|
    ensures var m := O.Ids(sends, src, tag)[k]; m < |sends| && sends[m].src == src && sends[m].tag == tag
    decreases |sends|
  {
    var n := |sends| - 1;
    if k < |O.Ids(sends[..n], src, tag)| { IdsFrom(sends[..n], src, tag, k); }
  }

  lemma LongEffect(c: Setup, e: G.State, m: nat)
    requires O.Inv(c.config, e) && m in e.longs
    ensures G.Enabled(c.config, e, G.LongSent(m))
    ensures var e' := G.Step(c.config, e, G.LongSent(m));
      e'.sends == e.sends && e'.recvs == e.recvs && e'.packets == e.packets && e'.longs == e.longs - {m}
  {
  }

  // ----- Devices -----

  lemma SendDevice(c: Setup, d: Device, packets: map<nat, G.Packet>, sends: seq<G.Send>, w: nat, steal: nat, x: G.Send)
    requires Good(c.config, d, packets, sends, None) && w < MAX_POOLS && G.Fits(c.config, x)
    ensures var (pools, r) := Get(d.pools, w, steal);
      var t := d.(pools := pools);
      Good(c.config, if r.None? then t else SendIn(c, t, r.value, x, LocalId(pools, w)), packets, sends, None)
  {
    var (pools, r) := Get(d.pools, w, steal);
    TakePooled(c.config, d, packets, sends, w, steal);
    if r.Some? {
      GiveSend(c.config, d.(pools := pools), packets, sends, r.value, SendContext(c, x, LocalId(pools, w)));
    }
  }

  /** A send changes the list of messages at its target and the device of its source. */
  lemma SendShape(c: Setup, s: Net, e: Event, j: nat)
    requires WellFormed(s) && e.Send? && Enabled(s, e) && j < |s.devs|
    ensures var t := StepSend(c, s, e);
      && |t.ends| == |s.ends| && |t.devs| == |s.devs|
      && (t.ends[j] == s.ends[j] || (j == e.dst && t.ends[j] == G.StepSend(c.config, s.ends[j], G.Send(e.src, e.tag, e.data))))
      && var (pools, r) := Get(s.devs[e.src].pools, e.worker, e.steal);
         var d, x := s.devs[e.src].(pools := pools), G.Send(e.src, e.tag, e.data);
         (t.devs[j] == s.devs[j] || (j == e.src && t.devs[j] ==
            if r.None? then d else SendIn(c, d, r.value, x, LocalId(pools, e.worker))))
  {
  }

  lemma SendKeepsDev(c: Setup, s: Net, e: Event, j: nat)
    requires Inv(c, s) && WellFormed(s) && e.Send? && Enabled(s, e) && EventFits(c, e) && j < |s.devs|
    ensures var t := StepSend(c, s, e); |t.devs| == |t.ends| == |s.ends| && DevOk(c, t.devs[j], t.ends[j])
  {
    var t := StepSend(c, s, e);
    var d, end := s.devs[j], s.ends[j];
    assert DevOk(c, d, end);
    SendShape(c, s, e, j);
    SendFrame(c, end, G.Send(e.src, e.tag, e.data));
    if j == e.src { SendDevice(c, d, end.packets, end.sends, e.worker, e.steal, G.Send(e.src, e.tag, e.data)); }
    SamePlaces(c.config, t.devs[j], end.packets, t.ends[j].packets, end.sends, t.ends[j].sends, None);
  }

  lemma PostKeepsDev(c: Setup, s: Net, e: Event)
    requires Inv(c, s) && WellFormed(s) && e.PostRecv? && Enabled(s, e)
    ensures DevOk(c, StepPost(s, e).devs[e.rank], s.ends[e.rank])
  {
    var d, end := s.devs[e.rank], s.ends[e.rank];
    assert DevOk(c, d, end);
    var (pools, r) := Get(d.pools, e.worker, e.steal);
    TakePooled(c.config, d, end.packets, end.sends, e.worker, e.steal);
    if r.Some? {
      GivePosted(c.config, d.(pools := pools), end.packets, end.sends, r.value, LocalId(pools, e.worker));
    }
  }

  /** A packet that met its receive, eager or by rendezvous. */
  lemma CollectKeeps(c: Setup, d: Device, packets: map<nat, G.Packet>, packets': map<nat, G.Packet>, sends: seq<G.Send>,
                     w: nat, p: nat, x: G.Send)
    requires Good(c.config, d, packets, sends, Some(p)) && w < MAX_POOLS && CtxOf(d, p).proto == HeaderOf(c.config, x)
    requires if G.Eager(c.config, x) then packets' == packets
      else p in packets' && Sending(packets', p) && packets' == packets[p := packets'[p]]
    ensures Good(c.config, Collect(c, d, w, p), packets', sends, None)
  {
    if G.Eager(c.config, x) {
      GiveCompletion(c.completion, c.config, d, packets, sends, w, p);
    } else {
      Serve(c.config, d, packets, sends, p, packets'[p], CtxOf(d, p).call);
    }
  }

  lemma ArrivalIsFresh(c: Setup, s: Net, i: nat, k: nat)
    requires Inv(c, s) && i < |s.devs| && k < |s.devs[i].posted|
    ensures s.devs[i].posted[k] !in s.ends[i].packets
  {
    assert DevOk(c, s.devs[i], s.ends[i]);
    TimesAt(s.devs[i].posted, k);
    OnlyThere(c.config, s.devs[i], s.ends[i].packets, s.ends[i].sends, s.devs[i].posted[k]);
  }

  /** A packet with message m just arrived. */
  lemma ArriveInHand(c: Setup, u: Device, packets: map<nat, G.Packet>, packets': map<nat, G.Packet>, sends: seq<G.Send>,
                     w: nat, p: nat, m: nat, b: G.Bytes, inserted: bool)
    requires Good(c.config, u, packets, sends, Some(p)) && w < MAX_POOLS && m < |sends|
    requires if inserted then packets' == packets[p := G.Waiting(m, b)]
      else if G.Eager(c.config, sends[m]) then packets' == packets - {p}
      else p in packets' && Sending(packets', p) && packets' == packets[p := packets'[p]]
    ensures var t := SetProto(u, p, HeaderOf(c.config, sends[m]));
      PoolsOk(t.pools) && Good(c.config, if inserted then t else Collect(c, t, w, p), packets', sends, None)
  {
    if inserted {
      Shelve(c.config, u, packets, sends, p, m, b);
    } else {
      SetProtoHand(c.config, u, packets, sends, p, HeaderOf(c.config, sends[m]));
      InHand(c.config, u, packets, sends, p);
      assert packets - {p} == packets;
      CollectKeeps(c, SetProto(u, p, HeaderOf(c.config, sends[m])), packets, packets', sends, w, p, sends[m]);
    }
  }

  lemma ArriveKeepsDev(c: Setup, s: Net, e: Event)
    requires Inv(c, s) && WellFormed(s) && e.Arrive? && Enabled(s, e)
    ensures var t := StepArrive(c, s, e); DevOk(c, t.devs[e.rank], t.ends[e.rank])
  {
    var d, end := s.devs[e.rank], s.ends[e.rank];
    var p := d.posted[e.slot];
    ArrivalIsFresh(c, s, e.rank, e.slot);
    ArriveEffect(c, end, e.src, p);
    assert DevOk(c, d, end);
    TakePosted(c.config, d, end.packets, end.sends, e.slot);
    ArriveInHand(c, d.(posted := Remove(d.posted, e.slot)), end.packets, G.StepArrive(c.config, end, e.src, p).packets,
                 end.sends, e.worker, p, G.WireOf(end, e.src)[0].msg,
                 G.InRoom(c.config, G.WireOf(end, e.src)[0].payload),
                 G.Lookup(c.config, end, G.ArrivePost(end, e.src, p)).inserted);
  }

  /** A packet in the table meets a receive. */
  lemma CollectShelved(c: Setup, d: Device, end: G.State, packets': map<nat, G.Packet>, w: nat, p: nat)
    requires DevOk(c, d, end) && w < MAX_POOLS && p in end.packets && end.packets[p].Waiting? && end.packets[p].msg < |end.sends|
    requires if G.Eager(c.config, end.sends[end.packets[p].msg]) then packets' == end.packets - {p}
      else p in packets' && Sending(packets', p) && packets' == end.packets[p := packets'[p]]
    ensures Good(c.config, Collect(c, d, w, p), packets', end.sends, None)
  {
    assert Shelved(c.config, CtxOf(d, p).proto, end.packets[p], end.sends);
    TakeResting(c.config, d, end.packets, end.sends, p);
    assert p in packets' ==> end.packets[p := packets'[p]] == (end.packets - {p})[p := packets'[p]];
    CollectKeeps(c, d, end.packets - {p}, packets', end.sends, w, p, end.sends[end.packets[p].msg]);
  }

  lemma RecvShape(c: Setup, s: Net, e: Event)
    requires WellFormed(s) && e.Recv? && Enabled(s, e)
    ensures var t, d, end := StepRecv(c, s, e), s.devs[e.rank], s.ends[e.rank];
      var out := G.Lookup(c.config, end, G.RecvPost(end, e.src, e.tag));
      && |t.devs| == |t.ends| == |s.ends| && t.ends[e.rank] == G.StepRecv(c.config, end, e.src, e.tag)
      && t.devs[e.rank] == if out.inserted || !out.value.PktItem? then d else Collect(c, d, e.worker, out.value.packet)
  {
  }

  lemma RecvKeepsDev(c: Setup, s: Net, e: Event)
    requires Inv(c, s) && WellFormed(s) && e.Recv? && Enabled(s, e)
    ensures var t := StepRecv(c, s, e); DevOk(c, t.devs[e.rank], t.ends[e.rank])
  {
    var d, end := s.devs[e.rank], s.ends[e.rank];
    assert EndOk(c, end, |s.ends|) && DevOk(c, d, end);
    RecvShape(c, s, e);
    RecvEffect(c, end, e.src, e.tag);
    var out := G.Lookup(c.config, end, G.RecvPost(end, e.src, e.tag));
    if !out.inserted {
      CollectShelved(c, d, end, G.StepRecv(c.config, end, e.src, e.tag).packets, e.worker, out.value.packet);
    }
  }

  /** The send of an RTR completed: its packet leaves with its last reference only. */
  lemma RtrUnrefKeeps(c: Setup, d: Device, end: G.State, packets': map<nat, G.Packet>, w: nat, k: nat)
    requires DevOk(c, d, end) && w < MAX_POOLS && k < |d.sends| && Sending(end.packets, d.sends[k])
    requires var p := d.sends[k];
      if end.packets[p].ref == 1 then packets' == end.packets - {p}
      else p in packets' && packets'[p].Served? && !packets'[p].sending && packets' == end.packets[p := packets'[p]]
    ensures Good(c.config, Unref(c, end, d.(sends := Remove(d.sends, k)), w, d.sends[k]), packets', end.sends, None)
  {
    var p := d.sends[k];
    var u := d.(sends := Remove(d.sends, k));
    if end.packets[p].ref == 1 {
      var pk := end.packets[p].(sending := false);
      RtrDone(c.config, d, end.packets, end.sends, k, pk);
      TakeResting(c.config, u, end.packets[p := pk], end.sends, p);
      assert end.packets[p := pk] - {p} == end.packets - {p};
      GiveCompletion(c.completion, c.config, u, packets', end.sends, w, p);
    } else {
      RtrDone(c.config, d, end.packets, end.sends, k, packets'[p]);
    }
  }

  lemma RtrSentShape(c: Setup, s: Net, e: Event)
    requires WellFormed(s) && e.SendDone? && Enabled(s, e)
    requires CtxOf(s.devs[e.rank], s.devs[e.rank].sends[e.slot]).proto.RtrHeader?
    ensures var t, d, end := StepSent(c, s, e), s.devs[e.rank], s.ends[e.rank];
      var p := d.sends[e.slot];
      && |t.ends| == |t.devs| == |s.ends|
      && t.devs[e.rank] == Unref(c, end, d.(sends := Remove(d.sends, e.slot)), e.worker, p)
      && t.ends[e.rank] == G.Step(c.config, end, G.RtrSent(p))
  {
  }

  lemma RtrIsSending(c: Setup, d: Device, end: G.State, k: nat)
    requires DevOk(c, d, end) && k < |d.sends| && CtxOf(d, d.sends[k]).proto.RtrHeader?
    ensures Sending(end.packets, d.sends[k])
  {
  }

  lemma RtrSentKeepsDev(c: Setup, s: Net, e: Event)
    requires Inv(c, s) && WellFormed(s) && e.SendDone? && Enabled(s, e)
    requires CtxOf(s.devs[e.rank], s.devs[e.rank].sends[e.slot]).proto.RtrHeader?
    ensures Sending(s.ends[e.rank].packets, s.devs[e.rank].sends[e.slot])
    ensures var t := StepSent(c, s, e); DevOk(c, t.devs[e.rank], t.ends[e.rank])
  {
    var d, end := s.devs[e.rank], s.ends[e.rank];
    assert EndOk(c, end, |s.ends|) && DevOk(c, d, end);
    RtrIsSending(c, d, end, e.slot);
    RtrSentShape(c, s, e);
    RtrSentEffect(c, end, d.sends[e.slot]);
    RtrUnrefKeeps(c, d, end, G.Step(c.config, end, G.RtrSent(d.sends[e.slot])).packets, e.worker, e.slot);
  }

  lemma OtherSentKeepsDev(c: Setup, s: Net, e: Event)
    requires Inv(c, s) && WellFormed(s) && e.SendDone? && Enabled(s, e)
    requires !CtxOf(s.devs[e.rank], s.devs[e.rank].sends[e.slot]).proto.RtrHeader?
    ensures DevOk(c, StepSent(c, s, e).devs[e.rank], s.ends[e.rank])
  {
    var d, end := s.devs[e.rank], s.ends[e.rank];
    var p := d.sends[e.slot];
    assert DevOk(c, d, end);
    TakeSent(c.config, d, end.packets, end.sends, e.slot);
    var u := d.(sends := Remove(d.sends, e.slot));
    if CtxOf(d, p).proto.DataHeader? {
      GiveBack(c.config, u, end.packets, end.sends, e.worker, p);
    } else {
      GiveFree(c.config, u, end.packets, end.sends, e.worker, p);
    }
  }

  lemma RtrArriveKeepsDev(c: Setup, s: Net, e: Event)
    requires Inv(c, s) && WellFormed(s) && e.RtrArrive? && Enabled(s, e)
    ensures var x := Sender(s.ends[e.rank], e.packet); DevOk(c, StepRtrArrive(c, s, e).devs[x], s.ends[x])
  {
    var x := Sender(s.ends[e.rank], e.packet);
    var d, end := s.devs[x], s.ends[x];
    assert DevOk(c, d, end);
    TakePosted(c.config, d, end.packets, end.sends, e.slot);
    GiveSend(c.config, d.(posted := Remove(d.posted, e.slot)), end.packets, end.sends, d.posted[e.slot],
             Context(LongHeader, -1, Call(e.rank, s.ends[e.rank].rtrs[e.packet].cb)));
  }

  /** The data of a rendezvous arrived: its packet leaves with its last reference only. */
  lemma UnrefKeeps(c: Setup, d: Device, end: G.State, packets': map<nat, G.Packet>, w: nat, p: nat)
    requires DevOk(c, d, end) && w < MAX_POOLS && p in end.packets && end.packets[p].Served?
    requires if end.packets[p].ref == 1 then Resting(end.packets, p) && packets' == end.packets - {p}
      else p in packets' && Sending(end.packets, p) && Sending(packets', p) && packets' == end.packets[p := packets'[p]]
    ensures Good(c.config, Unref(c, end, d, w, p), packets', end.sends, None)
    ensures Unref(c, end, d, w, p).posted == d.posted
  {
    if end.packets[p].ref == 1 {
      TakeResting(c.config, d, end.packets, end.sends, p);
      GiveCompletion(c.completion, c.config, d, packets', end.sends, w, p);
    } else {
      SamePlaces(c.config, d, end.packets, packets', end.sends, end.sends, None);
    }
  }

  lemma RdmaKeepsDev(c: Setup, s: Net, e: Event)
    requires Inv(c, s) && WellFormed(s) && e.RdmaArrive? && Enabled(s, e)
    ensures var t := StepRdmaArrive(c, s, e); DevOk(c, t.devs[e.rank], t.ends[e.rank])
  {
    var d, end, p := s.devs[e.rank], s.ends[e.rank], e.packet;
    assert EndOk(c, end, |s.ends|) && DevOk(c, d, end);
    RdmaEffect(c, end, p);
    var end' := G.Step(c.config, end, G.RdmaArrive(p));
    UnrefKeeps(c, d, end, end'.packets, e.worker, p);
    var u := Unref(c, end, d, e.worker, p);
    TakePosted(c.config, u, end'.packets, end.sends, e.slot);
    GiveFree(c.config, u.(posted := Remove(u.posted, e.slot)), end'.packets, end.sends, e.worker, u.posted[e.slot]);
  }

  lemma UserKeepsDev(c: Setup, s: Net, e: Event)
    requires Inv(c, s) && WellFormed(s) && (e.CqPop? || e.ReqFree?) && Enabled(s, e)
    ensures DevOk(c, Step(c, s, e).devs[e.rank], s.ends[e.rank])
  {
    var d, end := s.devs[e.rank], s.ends[e.rank];
    assert DevOk(c, d, end);
    if e.CqPop? {
      TakeQueued(c.config, d, end.packets, end.sends);
      GiveUser(c.config, d.(queue := d.queue[1..]), end.packets, end.sends, d.queue[0]);
    } else {
      TakeUsed(c.config, d, end.packets, end.sends, e.slot);
      GiveFree(c.config, d.(user := Remove(d.user, e.slot)), end.packets, end.sends, e.worker, d.user[e.slot]);
    }
  }

  // ----- Callbacks -----

  /** What is being sent as an RDMA write was so before, to run the same callback. */
  ghost predicate NoNewCalls(d: Device, t: Device) {
    forall p :: LongSend(t, p) ==> LongSend(d, p) && CtxOf(t, p).call == CtxOf(d, p).call
  }

  lemma CallsKept(x: nat, d: Device, t: Device, ends: seq<G.State>, ends': seq<G.State>)
    requires CallsOk(x, d, ends) && NoNewCalls(d, t) && |ends'| == |ends|
    requires forall j :: 0 <= j < |ends| ==> Grows(ends[j], ends'[j])
    ensures CallsOk(x, t, ends')
  {
    forall p | LongSend(t, p) ensures CallOk(x, CtxOf(t, p).call, ends') {
      assert CallOk(x, CtxOf(d, p).call, ends);
      assert Grows(ends[CtxOf(d, p).call.dst], ends'[CtxOf(d, p).call.dst]);
    }
  }

  lemma FreeCalls(c: Setup, d: Device, w: nat, p: nat)
    requires PoolsOk(d.pools)
    ensures NoNewCalls(d, Free(d, w, p)) && NoNewCalls(d, FreeData(d, w, p)) && NoNewCalls(d, Collect(c, d, w, p))
    ensures NoNewCalls(d, Dispatch(c.completion, d, w, p))
  {
  }

  lemma RemoveCalls(d: Device, i: nat)
    requires i < |d.sends|
    ensures NoNewCalls(d, d.(sends := Remove(d.sends, i)))
  {
  }

  lemma CallsThrough(d: Device, t: Device, u: Device)
    requires NoNewCalls(d, t) && NoNewCalls(t, u)
    ensures NoNewCalls(d, u)
  {
  }

  // ----- Steps keep the invariant -----

  /** Every rank's endpoint and device are in order, and nothing was taken back. */
  ghost predicate RankKept(c: Setup, s: Net, t: Net, j: nat)
    requires |s.ends| == |s.devs| == |t.ends| == |t.devs| && j < |s.ends|
  {
    EndOk(c, t.ends[j], |t.ends|) && DevOk(c, t.devs[j], t.ends[j]) && NoNewCalls(s.devs[j], t.devs[j])
    && Grows(s.ends[j], t.ends[j])
  }

  lemma RanksKept(c: Setup, s: Net, t: Net)
    requires Inv(c, s) && |s.ends| == |t.ends| == |t.devs|
    requires forall j :: 0 <= j < |s.ends| ==> RankKept(c, s, t, j)
    ensures Inv(c, t)
  {
    forall j | 0 <= j < |s.ends| ensures CallsOk(j, t.devs[j], t.ends) {
      assert RankKept(c, s, t, j);
      forall k | 0 <= k < |s.ends| ensures Grows(s.ends[k], t.ends[k]) { assert RankKept(c, s, t, k); }
      CallsKept(j, s.devs[j], t.devs[j], s.ends, t.ends);
    }
    forall j | 0 <= j < |s.ends| ensures EndOk(c, t.ends[j], |t.ends|) && DevOk(c, t.devs[j], t.ends[j]) {
      assert RankKept(c, s, t, j);
    }
  }

  lemma RankSame(c: Setup, s: Net, t: Net, j: nat)
    requires Inv(c, s) && |s.ends| == |t.ends| == |t.devs| && j < |s.ends|
    requires t.ends[j] == s.ends[j] && t.devs[j] == s.devs[j]
    ensures RankKept(c, s, t, j)
  {
    assert EndOk(c, s.ends[j], |s.ends|) && DevOk(c, s.devs[j], s.ends[j]);
  }

  /** Steps at one rank. */
  lemma OneRankKept(c: Setup, s: Net, t: Net, i: nat)
    requires Inv(c, s) && |s.ends| == |t.ends| == |t.devs| && i < |s.ends|
    requires forall j :: 0 <= j < |s.ends| && j != i ==> t.ends[j] == s.ends[j] && t.devs[j] == s.devs[j]
    requires RankKept(c, s, t, i)
    ensures Inv(c, t)
  {
    forall j | 0 <= j < |s.ends| ensures RankKept(c, s, t, j) { if j != i { RankSame(c, s, t, j); } }
    RanksKept(c, s, t);
  }

  lemma OneMoreSend(c: Setup, sends: seq<G.Send>, recvs: seq<G.Recv>, x: G.Send, n: nat)
    requires TrafficOk(c, sends, recvs, n) && G.Fits(c.config, x)
    ensures TrafficOk(c, sends + [x], recvs, n)
  {
  }

  lemma SendFrame(c: Setup, e: G.State, x: G.Send)
    ensures var e' := G.StepSend(c.config, e, x);
      e'.sends == e.sends + [x] && e'.recvs == e.recvs && e'.longs == e.longs && e'.packets == e.packets
  {
  }

  lemma SendEnd(c: Setup, e: G.State, x: G.Send, n: nat)
    requires EndOk(c, e, n) && G.Address(x.src, x.tag) && G.Fits(c.config, x)
    ensures EndOk(c, G.StepSend(c.config, e, x), n) && Grows(e, G.StepSend(c.config, e, x))
  {
    SendFrame(c, e, x);
    OneMoreSend(c, e.sends, e.recvs, x, n);
    O.SendKeepsInv(c.config, e, x);
  }

  lemma SendCalls(c: Setup, s: Net, e: Event, j: nat)
    requires WellFormed(s) && e.Send? && Enabled(s, e) && EventFits(c, e) && j < |s.devs|
    ensures var t := StepSend(c, s, e); |t.devs| == |s.devs| && NoNewCalls(s.devs[j], t.devs[j])
  {
    SendShape(c, s, e, j);
  }

  lemma SendRank(c: Setup, s: Net, e: Event, j: nat)
    requires Inv(c, s) && WellFormed(s) && e.Send? && Enabled(s, e) && EventFits(c, e) && j < |s.ends|
    ensures var t := StepSend(c, s, e); |t.ends| == |t.devs| == |s.ends| && RankKept(c, s, t, j)
  {
    SendKeepsDev(c, s, e, j);
    SendCalls(c, s, e, j);
    SendShape(c, s, e, j);
    assert EndOk(c, s.ends[j], |s.ends|);
    if j == e.dst { SendEnd(c, s.ends[j], G.Send(e.src, e.tag, e.data), |s.ends|); }
  }

  lemma SendKeepsInv(c: Setup, s: Net, e: Event)
    requires Inv(c, s) && WellFormed(s) && e.Send? && Enabled(s, e) && EventFits(c, e)
    ensures Inv(c, StepSend(c, s, e))
  {
    var t := StepSend(c, s, e);
    SendRank(c, s, e, e.src);
    forall j | 0 <= j < |s.ends| ensures RankKept(c, s, t, j) { SendRank(c, s, e, j); }
    RanksKept(c, s, t);
  }

  /** A step at one rank that adds no callback. */
  ghost predicate Local(s: Net, t: Net, i: nat)
    requires |s.ends| == |s.devs| && i < |s.ends|
  {
    && |s.ends| == |t.ends| == |t.devs|
    && (forall j :: 0 <= j < |s.ends| && j != i ==> t.ends[j] == s.ends[j] && t.devs[j] == s.devs[j])
    && NoNewCalls(s.devs[i], t.devs[i])
  }

  lemma LocalKeeps(c: Setup, s: Net, t: Net, i: nat)
    requires Inv(c, s) && i < |s.ends| && Local(s, t, i)
    requires EndOk(c, t.ends[i], |s.ends|) && DevOk(c, t.devs[i], t.ends[i]) && Grows(s.ends[i], t.ends[i])
    ensures Inv(c, t)
  {
    OneRankKept(c, s, t, i);
  }

  lemma OneMoreRecv(c: Setup, sends: seq<G.Send>, recvs: seq<G.Recv>, r: G.Recv, n: nat)
    requires TrafficOk(c, sends, recvs, n) && r.src < n
    ensures TrafficOk(c, sends, recvs + [r], n)
  {
  }

  lemma RecvEnd(c: Setup, e: G.State, src: nat, tag: nat, n: nat)
    requires EndOk(c, e, n) && G.Address(src, tag) && src < n
    ensures EndOk(c, G.StepRecv(c.config, e, src, tag), n)
  {
    RecvEffect(c, e, src, tag);
    O.RecvKeepsInv(c.config, e, src, tag);
    OneMoreRecv(c, e.sends, e.recvs, G.Recv(src, tag), n);
  }

  lemma RecvGrows(c: Setup, e: G.State, src: nat, tag: nat)
    requires O.Inv(c.config, e) && G.Address(src, tag)
    ensures Grows(e, G.StepRecv(c.config, e, src, tag))
  {
    RecvEffect(c, e, src, tag);
  }

  lemma RecvLocal(c: Setup, s: Net, e: Event)
    requires WellFormed(s) && e.Recv? && Enabled(s, e)
    ensures Local(s, StepRecv(c, s, e), e.rank)
  {
    var item := G.Lookup(c.config, s.ends[e.rank], G.RecvPost(s.ends[e.rank], e.src, e.tag)).value;
    if item.PktItem? { FreeCalls(c, s.devs[e.rank], e.worker, item.packet); }
  }

  lemma RecvKeepsInv(c: Setup, s: Net, e: Event)
    requires Inv(c, s) && WellFormed(s) && e.Recv? && Enabled(s, e)
    ensures Inv(c, StepRecv(c, s, e))
  {
    assert EndOk(c, s.ends[e.rank], |s.ends|);
    RecvEnd(c, s.ends[e.rank], e.src, e.tag, |s.ends|);
    RecvGrows(c, s.ends[e.rank], e.src, e.tag);
    RecvKeepsDev(c, s, e);
    RecvLocal(c, s, e);
    LocalKeeps(c, s, StepRecv(c, s, e), e.rank);
  }

  lemma PostLocal(s: Net, e: Event)
    requires WellFormed(s) && e.PostRecv? && Enabled(s, e)
    ensures Local(s, StepPost(s, e), e.rank) && StepPost(s, e).ends == s.ends
  {
  }

  lemma PostKeepsInv(c: Setup, s: Net, e: Event)
    requires Inv(c, s) && WellFormed(s) && e.PostRecv? && Enabled(s, e)
    ensures Inv(c, StepPost(s, e))
  {
    assert EndOk(c, s.ends[e.rank], |s.ends|);
    PostKeepsDev(c, s, e);
    PostLocal(s, e);
    LocalKeeps(c, s, StepPost(s, e), e.rank);
  }

  lemma ArriveEnd(c: Setup, e: G.State, src: nat, p: nat, n: nat)
    requires EndOk(c, e, n) && G.Enabled(c.config, e, G.Arrive(src, p))
    ensures EndOk(c, G.StepArrive(c.config, e, src, p), n) && Grows(e, G.StepArrive(c.config, e, src, p))
  {
    EndStep(c, e, G.Arrive(src, p));
    ArriveEffect(c, e, src, p);
  }

  lemma ArriveLocal(c: Setup, s: Net, e: Event)
    requires WellFormed(s) && e.Arrive? && Enabled(s, e)
    ensures Local(s, StepArrive(c, s, e), e.rank)
  {
    var d := s.devs[e.rank];
    var p := d.posted[e.slot];
    var t := SetProto(d.(posted := Remove(d.posted, e.slot)), p, ArrivingHeader(c, s.ends[e.rank], e.src));
    assert NoNewCalls(d, t);
    FreeCalls(c, t, e.worker, p);
    CallsThrough(d, t, StepArrive(c, s, e).devs[e.rank]);
  }

  lemma ArriveKeepsInv(c: Setup, s: Net, e: Event)
    requires Inv(c, s) && WellFormed(s) && e.Arrive? && Enabled(s, e)
    ensures Inv(c, StepArrive(c, s, e))
  {
    assert EndOk(c, s.ends[e.rank], |s.ends|);
    ArrivalIsFresh(c, s, e.rank, e.slot);
    ArriveEnd(c, s.ends[e.rank], e.src, s.devs[e.rank].posted[e.slot], |s.ends|);
    ArriveKeepsDev(c, s, e);
    ArriveLocal(c, s, e);
    LocalKeeps(c, s, StepArrive(c, s, e), e.rank);
  }

  lemma RtrSentEnd(c: Setup, e: G.State, p: nat, n: nat)
    requires EndOk(c, e, n) && Sending(e.packets, p)
    ensures EndOk(c, G.Step(c.config, e, G.RtrSent(p)), n) && Grows(e, G.Step(c.config, e, G.RtrSent(p)))
  {
    RtrSentEffect(c, e, p);
    EndStep(c, e, G.RtrSent(p));
  }

  /** All but the completion of an RDMA write. */
  lemma SentLocal(c: Setup, s: Net, e: Event)
    requires WellFormed(s) && e.SendDone? && Enabled(s, e)
    requires !CtxOf(s.devs[e.rank], s.devs[e.rank].sends[e.slot]).proto.LongHeader?
    ensures Local(s, StepSent(c, s, e), e.rank)
  {
    var d := s.devs[e.rank];
    var t := d.(sends := Remove(d.sends, e.slot));
    RemoveCalls(d, e.slot);
    FreeCalls(c, t, e.worker, d.sends[e.slot]);
    CallsThrough(d, t, StepSent(c, s, e).devs[e.rank]);
  }

  lemma SentKeepsInv(c: Setup, s: Net, e: Event)
    requires Inv(c, s) && WellFormed(s) && e.SendDone? && Enabled(s, e)
    requires !CtxOf(s.devs[e.rank], s.devs[e.rank].sends[e.slot]).proto.LongHeader?
    ensures Inv(c, StepSent(c, s, e))
  {
    var p := s.devs[e.rank].sends[e.slot];
    assert EndOk(c, s.ends[e.rank], |s.ends|);
    if CtxOf(s.devs[e.rank], p).proto.RtrHeader? {
      RtrSentKeepsDev(c, s, e);
      RtrSentEnd(c, s.ends[e.rank], p, |s.ends|);
    } else {
      OtherSentKeepsDev(c, s, e);
    }
    SentLocal(c, s, e);
    LocalKeeps(c, s, StepSent(c, s, e), e.rank);
  }

  lemma RdmaEnd(c: Setup, e: G.State, p: nat, n: nat)
    requires EndOk(c, e, n) && p in e.rdmas
    ensures EndOk(c, G.Step(c.config, e, G.RdmaArrive(p)), n) && Grows(e, G.Step(c.config, e, G.RdmaArrive(p)))
  {
    RdmaEffect(c, e, p);
    EndStep(c, e, G.RdmaArrive(p));
  }

  lemma UnrefCalls(c: Setup, end: G.State, d: Device, w: nat, p: nat)
    requires PoolsOk(d.pools)
    ensures NoNewCalls(d, Unref(c, end, d, w, p))
  {
    FreeCalls(c, d, w, p);
  }

  lemma NoticeCalls(c: Setup, d: Device, w: nat, k: nat)
    requires PoolsOk(d.pools) && k < |d.posted|
    ensures NoNewCalls(d, Free(d.(posted := Remove(d.posted, k)), w, d.posted[k]))
  {
    FreeCalls(c, d.(posted := Remove(d.posted, k)), w, d.posted[k]);
  }

  lemma RdmaLocal(c: Setup, s: Net, e: Event)
    requires WellFormed(s) && e.RdmaArrive? && Enabled(s, e)
    ensures Local(s, StepRdmaArrive(c, s, e), e.rank)
  {
    var u := Unref(c, s.ends[e.rank], s.devs[e.rank], e.worker, e.packet);
    UnrefCalls(c, s.ends[e.rank], s.devs[e.rank], e.worker, e.packet);
    NoticeCalls(c, u, e.worker, e.slot);
    CallsThrough(s.devs[e.rank], u, StepRdmaArrive(c, s, e).devs[e.rank]);
  }

  lemma RdmaKeepsInv(c: Setup, s: Net, e: Event)
    requires Inv(c, s) && WellFormed(s) && e.RdmaArrive? && Enabled(s, e)
    ensures Inv(c, StepRdmaArrive(c, s, e))
  {
    assert EndOk(c, s.ends[e.rank], |s.ends|);
    RdmaEnd(c, s.ends[e.rank], e.packet, |s.ends|);
    RdmaKeepsDev(c, s, e);
    RdmaLocal(c, s, e);
    LocalKeeps(c, s, StepRdmaArrive(c, s, e), e.rank);
  }

  lemma UserLocal(c: Setup, s: Net, e: Event)
    requires WellFormed(s) && (e.CqPop? || e.ReqFree?) && Enabled(s, e)
    ensures Local(s, Step(c, s, e), e.rank) && Step(c, s, e).ends == s.ends
  {
  }

  lemma UserKeepsInv(c: Setup, s: Net, e: Event)
    requires Inv(c, s) && WellFormed(s) && (e.CqPop? || e.ReqFree?) && Enabled(s, e)
    ensures Inv(c, Step(c, s, e))
  {
    assert EndOk(c, s.ends[e.rank], |s.ends|);
    UserKeepsDev(c, s, e);
    UserLocal(c, s, e);
    LocalKeeps(c, s, Step(c, s, e), e.rank);
  }

  // The two steps that make a callback due, and run it, concern two ranks.

  lemma RtrShape(c: Setup, s: Net, e: Event)
    requires WellFormed(s) && e.RtrArrive? && Enabled(s, e)
    ensures var t, x := StepRtrArrive(c, s, e), Sender(s.ends[e.rank], e.packet);
      && t.ends == s.ends[e.rank := G.Step(c.config, s.ends[e.rank], G.RtrArrive(e.packet))]
      && |t.devs| == |s.devs| && (forall j :: 0 <= j < |s.devs| && j != x ==> t.devs[j] == s.devs[j])
      && t.devs[x] == Emit(s.devs[x].(posted := Remove(s.devs[x].posted, e.slot)), s.devs[x].posted[e.slot],
                           Context(LongHeader, -1, Call(e.rank, s.ends[e.rank].rtrs[e.packet].cb)))
  {
  }

  /** A callback that was not due before becomes due, for one packet. */
  lemma CallAdded(x: nat, d: Device, ends: seq<G.State>, ends': seq<G.State>, p: nat, call: Call)
    requires CallsOk(x, d, ends) && |ends'| == |ends| && forall j :: 0 <= j < |ends| ==> Grows(ends[j], ends'[j])
    requires CallOk(x, call, ends') && call.msg !in ends[call.dst].longs
    ensures CallsOk(x, Emit(d, p, Context(LongHeader, -1, call)), ends')
  {
    var t := Emit(d, p, Context(LongHeader, -1, call));
    CallsKept(x, d, d, ends, ends');
    forall q | LongSend(t, q) && q != p ensures LongSend(d, q) && CtxOf(t, q).call == CtxOf(d, q).call != call {
      assert LongSend(d, q) && CallOk(x, CtxOf(d, q).call, ends);
    }
  }

  lemma RtrArriveEnd(c: Setup, e: G.State, p: nat, n: nat)
    requires EndOk(c, e, n) && p in e.rtrs
    ensures EndOk(c, G.Step(c.config, e, G.RtrArrive(p)), n) && Grows(e, G.Step(c.config, e, G.RtrArrive(p)))
  {
    RtrEffect(c, e, p);
    EndStep(c, e, G.RtrArrive(p));
  }

  lemma DueAt(ends: seq<G.State>, i: nat, e': G.State, m: nat, x: nat)
    requires i < |ends| && e'.sends == ends[i].sends && e'.longs == ends[i].longs + {m}
    requires m < |ends[i].sends| && ends[i].sends[m].src == x
    ensures forall k :: 0 <= k < |ends| ==> Grows(ends[k], ends[i := e'][k])
    ensures CallOk(x, Call(i, m), ends[i := e'])
  {
  }

  /** The callback of the message becomes due at its source. */
  lemma RtrDue(c: Setup, s: Net, e: Event)
    requires Inv(c, s) && WellFormed(s) && e.RtrArrive? && Enabled(s, e)
    ensures var t, x := StepRtrArrive(c, s, e), Sender(s.ends[e.rank], e.packet);
      var call := Call(e.rank, s.ends[e.rank].rtrs[e.packet].cb);
      && |t.ends| == |s.ends| && (forall k :: 0 <= k < |s.ends| ==> Grows(s.ends[k], t.ends[k]))
      && CallOk(x, call, t.ends) && call.msg !in s.ends[call.dst].longs
  {
    var end := s.ends[e.rank];
    assert EndOk(c, end, |s.ends|);
    RtrShape(c, s, e);
    RtrEffect(c, end, e.packet);
    DueAt(s.ends, e.rank, G.Step(c.config, end, G.RtrArrive(e.packet)), end.rtrs[e.packet].cb, Sender(end, e.packet));
  }

  lemma RtrArriveCalls(c: Setup, s: Net, e: Event, j: nat)
    requires Inv(c, s) && WellFormed(s) && e.RtrArrive? && Enabled(s, e) && j < |s.ends|
    ensures var t := StepRtrArrive(c, s, e); |t.devs| == |s.ends| && CallsOk(j, t.devs[j], t.ends)
  {
    var t, x := StepRtrArrive(c, s, e), Sender(s.ends[e.rank], e.packet);
    RtrShape(c, s, e);
    RtrDue(c, s, e);
    RtrCallsAt(j, x, s.devs[j], t.devs[j], s.ends, t.ends, e.slot, Call(e.rank, s.ends[e.rank].rtrs[e.packet].cb));
  }

  lemma RtrCallsAt(j: nat, x: nat, d: Device, t: Device, ends: seq<G.State>, ends': seq<G.State>, k: nat, call: Call)
    requires CallsOk(j, d, ends) && |ends'| == |ends| && forall i :: 0 <= i < |ends| ==> Grows(ends[i], ends'[i])
    requires CallOk(x, call, ends') && call.msg !in ends[call.dst].longs
    requires if j == x
      then k < |d.posted| && t == Emit(d.(posted := Remove(d.posted, k)), d.posted[k], Context(LongHeader, -1, call))
      else t == d
    ensures CallsOk(j, t, ends')
  {
    if j == x {
      var u := d.(posted := Remove(d.posted, k));
      CallsKept(x, d, u, ends, ends);
      CallAdded(x, u, ends, ends', d.posted[k], call);
    } else {
      CallsKept(j, d, t, ends, ends');
    }
  }

  lemma RtrArriveRank(c: Setup, s: Net, e: Event, j: nat)
    requires Inv(c, s) && WellFormed(s) && e.RtrArrive? && Enabled(s, e) && j < |s.ends|
    ensures var t := StepRtrArrive(c, s, e);
      |t.ends| == |t.devs| == |s.ends| && EndOk(c, t.ends[j], |s.ends|) && DevOk(c, t.devs[j], t.ends[j])
  {
    RtrShape(c, s, e);
    assert EndOk(c, s.ends[j], |s.ends|) && DevOk(c, s.devs[j], s.ends[j]);
    if j == e.rank {
      RtrArriveEnd(c, s.ends[j], e.packet, |s.ends|);
      RtrEffect(c, s.ends[j], e.packet);
    }
    if j == Sender(s.ends[e.rank], e.packet) { RtrArriveKeepsDev(c, s, e); }
  }

  lemma RtrArriveKeepsInv(c: Setup, s: Net, e: Event)
    requires Inv(c, s) && WellFormed(s) && e.RtrArrive? && Enabled(s, e)
    ensures Inv(c, StepRtrArrive(c, s, e))
  {
    var t := StepRtrArrive(c, s, e);
    forall j | 0 <= j < |s.ends|
      ensures |t.ends| == |t.devs| == |s.ends|
      ensures EndOk(c, t.ends[j], |t.ends|) && DevOk(c, t.devs[j], t.ends[j]) && CallsOk(j, t.devs[j], t.ends)
    {
      RtrArriveRank(c, s, e, j);
      RtrArriveCalls(c, s, e, j);
    }
    RtrShape(c, s, e);
  }

  lemma LongShape(c: Setup, s: Net, e: Event)
    requires WellFormed(s) && e.SendDone? && Enabled(s, e)
    requires var d := s.devs[e.rank];
      CtxOf(d, d.sends[e.slot]).proto.LongHeader? && CtxOf(d, d.sends[e.slot]).call.dst < |s.ends|
    ensures var t, d := StepSent(c, s, e), s.devs[e.rank];
      var call := CtxOf(d, d.sends[e.slot]).call;
      && t.ends == s.ends[call.dst := G.Step(c.config, s.ends[call.dst], G.LongSent(call.msg))]
      && t.devs == s.devs[e.rank := Free(d.(sends := Remove(d.sends, e.slot)), e.worker, d.sends[e.slot])]
  {
  }

  /** A callback that is run is no longer due; no other packet was to run it. */
  lemma CallRun(c: Setup, y: nat, d: Device, ends: seq<G.State>, call: Call)
    requires CallsOk(y, d, ends) && call.dst < |ends| && O.Inv(c.config, ends[call.dst])
    requires call.msg in ends[call.dst].longs && forall p :: LongSend(d, p) ==> CtxOf(d, p).call != call
    ensures CallsOk(y, d, ends[call.dst := G.Step(c.config, ends[call.dst], G.LongSent(call.msg))])
  {
    var ends' := ends[call.dst := G.Step(c.config, ends[call.dst], G.LongSent(call.msg))];
    LongEffect(c, ends[call.dst], call.msg);
    forall p | LongSend(d, p) ensures CallOk(y, CtxOf(d, p).call, ends') {
      assert CallOk(y, CtxOf(d, p).call, ends);
    }
  }

  lemma LongSentCalls(c: Setup, s: Net, e: Event, j: nat)
    requires Inv(c, s) && WellFormed(s) && e.SendDone? && Enabled(s, e) && j < |s.ends|
    requires var d := s.devs[e.rank]; CtxOf(d, d.sends[e.slot]).proto.LongHeader?
    ensures CallsOk(j, StepSent(c, s, e).devs[j], StepSent(c, s, e).ends)
  {
    var d := s.devs[e.rank];
    var p := d.sends[e.slot];
    var call := CtxOf(d, p).call;
    assert LongSend(d, p) && CallsOk(e.rank, d, s.ends) && CallsOk(j, s.devs[j], s.ends);
    assert CallOk(e.rank, call, s.ends) && EndOk(c, s.ends[call.dst], |s.ends|);
    LongShape(c, s, e);
    var t := StepSent(c, s, e);
    if j == e.rank {
      SentOnce(c, s, e);
      CallsKept(j, d, t.devs[j], s.ends, s.ends);
    } else {
      forall q | LongSend(s.devs[j], q) ensures CtxOf(s.devs[j], q).call != call {
        assert CallOk(j, CtxOf(s.devs[j], q).call, s.ends);
      }
    }
    CallRun(c, j, t.devs[j], s.ends, call);
  }

  /** The packet of a completed RDMA write is no longer being sent. */
  lemma SentOnce(c: Setup, s: Net, e: Event)
    requires Inv(c, s) && WellFormed(s) && e.SendDone? && Enabled(s, e)
    requires var d := s.devs[e.rank];
      CtxOf(d, d.sends[e.slot]).proto.LongHeader? && CtxOf(d, d.sends[e.slot]).call.dst < |s.ends|
    ensures var t, d := StepSent(c, s, e).devs[e.rank], s.devs[e.rank];
      NoNewCalls(d, t) && forall q :: LongSend(t, q) ==> CtxOf(t, q).call != CtxOf(d, d.sends[e.slot]).call
  {
    var d := s.devs[e.rank];
    var p := d.sends[e.slot];
    LongShape(c, s, e);
    assert DevOk(c, d, s.ends[e.rank]) && CallsOk(e.rank, d, s.ends) && LongSend(d, p);
    assert Total(d, s.ends[e.rank].packets, p) <= 1;
    TimesRemove(d.sends, e.slot, p);
    TimesNone(Remove(d.sends, e.slot), p);
    RemoveCalls(d, e.slot);
  }

  lemma LongSentEnd(c: Setup, e: G.State, m: nat, n: nat)
    requires EndOk(c, e, n) && m in e.longs
    ensures EndOk(c, G.Step(c.config, e, G.LongSent(m)), n)
  {
    LongEffect(c, e, m);
    EndStep(c, e, G.LongSent(m));
  }

  lemma LongSentRank(c: Setup, s: Net, e: Event, j: nat)
    requires Inv(c, s) && WellFormed(s) && e.SendDone? && Enabled(s, e) && j < |s.ends|
    requires var d := s.devs[e.rank]; CtxOf(d, d.sends[e.slot]).proto.LongHeader?
    ensures var t := StepSent(c, s, e);
      |t.ends| == |t.devs| == |s.ends| && EndOk(c, t.ends[j], |s.ends|) && DevOk(c, t.devs[j], t.ends[j])
  {
    var d := s.devs[e.rank];
    var call := CtxOf(d, d.sends[e.slot]).call;
    assert LongSend(d, d.sends[e.slot]) && CallsOk(e.rank, d, s.ends);
    assert CallOk(e.rank, call, s.ends) && EndOk(c, s.ends[j], |s.ends|) && DevOk(c, s.devs[j], s.ends[j]);
    LongShape(c, s, e);
    if j == call.dst {
      LongEffect(c, s.ends[j], call.msg);
      LongSentEnd(c, s.ends[j], call.msg, |s.ends|);
    }
    if j == e.rank { OtherSentKeepsDev(c, s, e); }
  }

  lemma LongSentKeepsInv(c: Setup, s: Net, e: Event)
    requires Inv(c, s) && WellFormed(s) && e.SendDone? && Enabled(s, e)
    requires var d := s.devs[e.rank]; CtxOf(d, d.sends[e.slot]).proto.LongHeader?
    ensures Inv(c, StepSent(c, s, e))
  {
    var t := StepSent(c, s, e);
    forall j | 0 <= j < |s.ends|
      ensures |t.ends| == |t.devs| == |s.ends|
      ensures EndOk(c, t.ends[j], |t.ends|) && DevOk(c, t.devs[j], t.ends[j]) && CallsOk(j, t.devs[j], t.ends)
    {
      LongSentRank(c, s, e, j);
      LongSentCalls(c, s, e, j);
    }
    LongSentRank(c, s, e, e.rank);
  }

  /** Every handler keeps the invariant of all endpoints and devices. */
  lemma StepKeepsInv(c: Setup, s: Net, e: Event)
    requires Inv(c, s) && WellFormed(s) && Enabled(s, e) && EventFits(c, e)
    ensures Inv(c, Step(c, s, e))
  {
    if e.Send? { SendKeepsInv(c, s, e); }
    else if e.Recv? { RecvKeepsInv(c, s, e); }
    else if e.PostRecv? { PostKeepsInv(c, s, e); }
    else if e.Arrive? { ArriveKeepsInv(c, s, e); }
    else { LaterStepKeepsInv(c, s, e); }
  }

  lemma LaterStepKeepsInv(c: Setup, s: Net, e: Event)
    requires Inv(c, s) && WellFormed(s) && Enabled(s, e) && !e.Send? && !e.Recv? && !e.PostRecv? && !e.Arrive?
    ensures Inv(c, Step(c, s, e))
  {
    if e.SendDone? {
      if CtxOf(s.devs[e.rank], s.devs[e.rank].sends[e.slot]).proto.LongHeader? { LongSentKeepsInv(c, s, e); }
      else { SentKeepsInv(c, s, e); }
    }
    else if e.RtrArrive? { RtrArriveKeepsInv(c, s, e); }
    else if e.RdmaArrive? { RdmaKeepsInv(c, s, e); }
    else { UserKeepsInv(c, s, e); }
  }

  // ----- Runs -----

  lemma InitialInv(c: Setup, n: nat, opener: nat)
    requires n <= G.RANKS && opener < MAX_POOLS
    ensures Inv(c, Initial(n, opener))
  {
    O.InitialInv(c.config);
    OpenedGood(c.config, opener);
    var s := Initial(n, opener);
    forall i | 0 <= i < n
      ensures EndOk(c, s.ends[i], n) && DevOk(c, s.devs[i], s.ends[i]) && CallsOk(i, s.devs[i], s.ends)
    {
      assert s.ends[i] == G.Initial() && s.devs[i] == Opened(opener);
      assert forall p :: !LongSend(Opened(opener), p);
    }
  }

  lemma {:induction false} RunKeepsInv(c: Setup, s: Net, events: seq<Event>)
    requires Inv(c, s) && AllFit(c, events)
    ensures Inv(c, Run(c, s, events)) && |Run(c, s, events).ends| == |s.ends|
    decreases |events|
  {
    InvWellFormed(c, s);
    if events != [] {
      if Enabled(s, events[0]) { StepKeepsInv(c, s, events[0]); StepSize(c, s, events[0]); }
      RunKeepsInv(c, if Enabled(s, events[0]) then Step(c, s, events[0]) else s, events[1..]);
    }
  }

  lemma StepSize(c: Setup, s: Net, e: Event)
    requires WellFormed(s) && Enabled(s, e)
    ensures |Step(c, s, e).ends| == |s.ends|
  {
  }

  /** Every message sent fits the packet it goes in. */
  ghost predicate AllFit(c: Setup, events: seq<Event>) {
    forall k :: 0 <= k < |events| ==> EventFits(c, events[k])
  }

  /** n ranks, their devices opened by worker `opener`, after any events. */
  ghost function Reached(c: Setup, n: nat, opener: nat, events: seq<Event>): Net {
    Run(c, Initial(n, opener), events)
  }

  lemma ReachedInv(c: Setup, n: nat, opener: nat, events: seq<Event>)
    requires n <= G.RANKS && opener < MAX_POOLS && AllFit(c, events)
    ensures var s := Reached(c, n, opener, events); Inv(c, s) && WellFormed(s) && |s.ends| == n
  {
    InitialInv(c, n, opener);
    RunKeepsInv(c, Initial(n, opener), events);
    InvWellFormed(c, Reached(c, n, opener, events));
  }

  // ----- Main results -----

  /** In every run each of the 1024 packets of each device is in exactly one place. */
  lemma Conserved(c: Setup, n: nat, opener: nat, events: seq<Event>, i: nat, p: nat)
    requires n <= G.RANKS && opener < MAX_POOLS && AllFit(c, events) && i < n
    ensures var s := Reached(c, n, opener, events);
      |s.ends| == |s.devs| == n && Total(s.devs[i], s.ends[i].packets, p) == if p < PACKETS then 1 else 0
  {
    var s := Reached(c, n, opener, events);
    ReachedInv(c, n, opener, events);
    assert DevOk(c, s.devs[i], s.ends[i]);
    assert Total(s.devs[i], s.ends[i].packets, p) + (if None == Some(p) then 1 else 0) == if p < PACKETS then 1 else 0;
  }

  /** While at most 128 workers have a pool on a device, none of its packets is lost. */
  lemma NoneLost(c: Setup, n: nat, opener: nat, events: seq<Event>, i: nat)
    requires n <= G.RANKS && opener < MAX_POOLS && AllFit(c, events) && i < n
    ensures var s := Reached(c, n, opener, events);
      |s.devs| == n && (|s.devs[i].pools.lists| <= 128 ==> s.devs[i].lost == [])
  {
    var s := Reached(c, n, opener, events);
    ReachedInv(c, n, opener, events);
    assert DevOk(c, s.devs[i], s.ends[i]);
  }

  /** What arrives at a rank arrives in a packet that the protocol is not using there. */
  lemma PostedIsFresh(c: Setup, n: nat, opener: nat, events: seq<Event>, i: nat, k: nat)
    requires n <= G.RANKS && opener < MAX_POOLS && AllFit(c, events) && i < n
    ensures var s := Reached(c, n, opener, events);
      |s.ends| == |s.devs| == n && (k < |s.devs[i].posted| ==> s.devs[i].posted[k] !in s.ends[i].packets)
  {
    ReachedInv(c, n, opener, events);
    var s := Reached(c, n, opener, events);
    if k < |s.devs[i].posted| { ArrivalIsFresh(c, s, i, k); }
  }

  /** No pool and no completion queue is ever so full that a push would overflow its buffer. */
  lemma NoOverflow(c: Setup, n: nat, opener: nat, events: seq<Event>, i: nat)
    requires n <= G.RANKS && opener < MAX_POOLS && AllFit(c, events) && i < n
    ensures var s := Reached(c, n, opener, events);
      && |s.devs| == n && |s.devs[i].queue| < QUEUE_CELLS - 1
      && forall k :: 0 <= k < |s.devs[i].pools.lists| ==> |s.devs[i].pools.lists[k]| < DEQUE_CELLS - 1
  {
    ReachedInv(c, n, opener, events);
    var s := Reached(c, n, opener, events);
    assert DevOk(c, s.devs[i], s.ends[i]);
    ListsFit(c.config, s.devs[i], s.ends[i].packets, s.ends[i].sends, None);
  }

  // With more than 128 workers packets can be lost: 129 workers send a medium message each, and the packet of the last one is
  // put back through eight bits.

  function SendBy(w: nat, data: G.Bytes): Event {
    Send(0, 0, 0, data, w, 0)
  }

  function SendsBy(k: nat, data: G.Bytes): seq<Event> {
    seq(k, (w: nat) => SendBy(w, data))
  }

  /** Workers 0 to k - 1 have a pool each, and k packets are gone from the first. */
  ghost predicate SpreadPools(pools: Pools, k: nat) {
    && k > 0 && |pools.lists| == k && |pools.lists[0]| == PACKETS - k
    && (forall w: nat :: w in pools.local <==> w < k) && (forall w :: 0 <= w < k ==> pools.local[w] == w)
  }

  /** Each of these workers has sent a packet, worker k - 1 last. */
  ghost predicate Spread(d: Device, k: nat) {
    && SpreadPools(d.pools, k)
    && |d.sends| == k && CtxOf(d, d.sends[k - 1]) == Context(DataHeader, ToInt8(k - 1), Call(0, 0))
  }

  lemma SpreadGet(pools: Pools, k: nat)
    requires PoolsOk(pools) && SpreadPools(pools, k) && k < 255
    ensures var (t, r) := Get(pools, k, 0); r.Some? && SpreadPools(t, k + 1) && LocalId(t, k) == k
  {
    assert WithLocal(pools, k).lists[0] == pools.lists[0] && WithLocal(pools, k).lists[k] == [];
    assert Get(pools, k, 0).1 == Some(pools.lists[0][0]);
  }

  lemma {:induction false} RunSnoc(c: Setup, s: Net, events: seq<Event>, e: Event)
    ensures var t := Run(c, s, events);
      Run(c, s, events + [e]) == if WellFormed(t) && Enabled(t, e) then Step(c, t, e) else t
    decreases |events|
  {
    if events == [] {
      assert Run(c, s, [e]) == if WellFormed(s) && Enabled(s, e) then Run(c, Step(c, s, e), []) else s;
    } else if WellFormed(s) {
      assert (events + [e])[0] == events[0] && (events + [e])[1..] == events[1..] + [e];
      RunSnoc(c, if Enabled(s, events[0]) then Step(c, s, events[0]) else s, events[1..], e);
    }
  }

  predicate Medium(c: Setup, data: G.Bytes) {
    c.config.maxInline < |data| <= c.config.packetSize && MARKED_SIZE < |data| <= c.config.room
  }

  lemma SpreadStep(c: Setup, s: Net, k: nat, data: G.Bytes)
    requires WellFormed(s) && |s.devs| == 1 && Spread(s.devs[0], k) && k < 255 && Medium(c, data)
    ensures Enabled(s, SendBy(k, data)) && Spread(Step(c, s, SendBy(k, data)).devs[0], k + 1)
  {
    SpreadGet(s.devs[0].pools, k);
    SendShape(c, s, SendBy(k, data), 0);
  }

  /** One send more, by the next worker. */
  lemma OneSendMore(c: Setup, k: nat, data: G.Bytes)
    ensures var s := Reached(c, 1, 0, SendsBy(k, data));
      Reached(c, 1, 0, SendsBy(k + 1, data)) ==
        if WellFormed(s) && Enabled(s, SendBy(k, data)) then Step(c, s, SendBy(k, data)) else s
  {
    assert SendsBy(k + 1, data) == SendsBy(k, data) + [SendBy(k, data)];
    RunSnoc(c, Initial(1, 0), SendsBy(k, data), SendBy(k, data));
  }

  lemma SpreadReached(c: Setup, k: nat, data: G.Bytes)
    requires Medium(c, data)
    ensures var s := Reached(c, 1, 0, SendsBy(k, data)); WellFormed(s) && |s.ends| == |s.devs| == 1
  {
    forall i | 0 <= i < k ensures EventFits(c, SendsBy(k, data)[i]) { assert SendsBy(k, data)[i] == SendBy(i, data); }
    ReachedInv(c, 1, 0, SendsBy(k, data));
  }

  lemma {:induction false} SpreadRun(c: Setup, k: nat, data: G.Bytes)
    requires 0 < k <= 255 && Medium(c, data)
    ensures var s := Reached(c, 1, 0, SendsBy(k, data)); |s.ends| == |s.devs| == 1 && Spread(s.devs[0], k)
  {
    OneSendMore(c, k - 1, data);
    SpreadReached(c, k - 1, data);
    SpreadReached(c, k, data);
    if k == 1 {
      FirstSend(c, data);
    } else {
      SpreadRun(c, k - 1, data);
      SpreadStep(c, Reached(c, 1, 0, SendsBy(k - 1, data)), k - 1, data);
    }
  }

  lemma FirstSend(c: Setup, data: G.Bytes)
    requires Medium(c, data)
    ensures var s := Initial(1, 0);
      WellFormed(s) && Enabled(s, SendBy(0, data)) && Spread(Step(c, s, SendBy(0, data)).devs[0], 1)
    ensures Reached(c, 1, 0, SendsBy(0, data)) == Initial(1, 0)
  {
    InitialInv(c, 1, 0);
    InvWellFormed(c, Initial(1, 0));
    var d := Initial(1, 0).devs[0];
    assert d == Opened(0) && d.pools.lists[0] == UpTo(PACKETS);
    assert Get(d.pools, 0, 0).1 == Some(PACKETS - 1);
  }

  lemma LastPutBack(c: Setup, s: Net)
    requires WellFormed(s) && |s.devs| == 1 && Spread(s.devs[0], 129)
    ensures Enabled(s, SendDone(0, 128, 0))
    ensures var d := Step(c, s, SendDone(0, 128, 0)).devs[0]; d.pools == s.devs[0].pools && d.lost != []
  {
    var d := s.devs[0];
    assert ToInt8(128) == -128;
    assert PutBack(d.pools, 0, d.sends[128], -128) == None;
  }

  /** With 129 workers a packet can be lost. */
  lemma LosesPacket(c: Setup, data: G.Bytes)
    requires Medium(c, data)
    ensures var s := Reached(c, 1, 0, SendsBy(129, data) + [SendDone(0, 128, 0)]);
      |s.devs| == 1 && |s.devs[0].pools.lists| == 129 && s.devs[0].lost != []
  {
    SpreadRun(c, 129, data);
    SpreadReached(c, 129, data);
    LastPutBack(c, Reached(c, 1, 0, SendsBy(129, data)));
    RunSnoc(c, Initial(1, 0), SendsBy(129, data), SendDone(0, 128, 0));
  }

  // ----- Every endpoint runs as if it were the only one -----

  /** What a step is for the endpoint of rank j. */
  function EndEvents(c: Setup, s: Net, e: Event, j: nat): seq<G.Event>
    requires WellFormed(s) && Enabled(s, e)
  {
    match e
    case Send(src, dst, tag, data, w, steal) =>
      if j == dst && (G.ProtocolOf(c.config, |data|).Short? || Get(s.devs[src].pools, w, steal).1.Some?)
      then [G.DoSend(src, tag, data)] else []
    case Recv(i, src, tag, _) => if j == i then [G.DoRecv(src, tag)] else []
    case Arrive(i, src, k, _) => if j == i then [G.Arrive(src, s.devs[i].posted[k])] else []
    case SendDone(i, k, _) =>
      var p := s.devs[i].sends[k];
      var x := CtxOf(s.devs[i], p);
      if x.proto.RtrHeader? && j == i then [G.RtrSent(p)]
      else if x.proto.LongHeader? && j == x.call.dst then [G.LongSent(x.call.msg)]
      else []
    case RtrArrive(i, p, _) => if j == i then [G.RtrArrive(p)] else []
    case RdmaArrive(i, p, _, _) => if j == i then [G.RdmaArrive(p)] else []
    case _ => []
  }

  ghost function Trace(c: Setup, s: Net, events: seq<Event>, j: nat): seq<G.Event>
    decreases |events|
  {
    if events == [] || !WellFormed(s) then []
    else if Enabled(s, events[0]) then
      EndEvents(c, s, events[0], j) + Trace(c, Step(c, s, events[0]), events[1..], j)
    else Trace(c, s, events[1..], j)
  }

  lemma EventsEnabled(c: Setup, s: Net, e: Event, j: nat)
    requires Inv(c, s) && WellFormed(s) && Enabled(s, e) && j < |s.ends| && EndEvents(c, s, e, j) != []
    ensures G.Enabled(c.config, s.ends[j], EndEvents(c, s, e, j)[0])
  {
    assert EndOk(c, s.ends[j], |s.ends|);
    if e.Arrive? { ArrivalIsFresh(c, s, e.rank, e.slot); }
    if e.SendDone? {
      var d := s.devs[e.rank];
      var p := d.sends[e.slot];
      assert DevOk(c, d, s.ends[e.rank]) && CallsOk(e.rank, d, s.ends);
      if CtxOf(d, p).proto.LongHeader? { assert LongSend(d, p) && CallOk(e.rank, CtxOf(d, p).call, s.ends); }
    }
  }

  /** The endpoint of rank j after a step is the endpoint before it after its part of the step. */
  ghost predicate Projects(c: Setup, s: Net, e: Event, j: nat)
    requires WellFormed(s) && Enabled(s, e) && j < |s.ends|
  {
    var events := EndEvents(c, s, e, j);
    && |Step(c, s, e).ends| == |s.ends| && |events| <= 1
    && Step(c, s, e).ends[j] == if events == [] then s.ends[j] else G.Step(c.config, s.ends[j], events[0])
  }

  lemma SendProjects(c: Setup, s: Net, e: Event, j: nat)
    requires WellFormed(s) && Enabled(s, e) && j < |s.ends| && e.Send?
    ensures Projects(c, s, e, j)
  {
  }

  lemma SentProjects(c: Setup, s: Net, e: Event, j: nat)
    requires WellFormed(s) && Enabled(s, e) && j < |s.ends| && e.SendDone?
    ensures Projects(c, s, e, j)
  {
  }

  lemma ArrivalProjects(c: Setup, s: Net, e: Event, j: nat)
    requires WellFormed(s) && Enabled(s, e) && j < |s.ends| && (e.Arrive? || e.RtrArrive? || e.RdmaArrive?)
    ensures Projects(c, s, e, j)
  {
  }

  lemma StepProjects(c: Setup, s: Net, e: Event, j: nat)
    requires WellFormed(s) && Enabled(s, e) && j < |s.ends|
    ensures Projects(c, s, e, j)
  {
    if e.Send? { SendProjects(c, s, e, j); }
    else if e.SendDone? { SentProjects(c, s, e, j); }
    else if e.Arrive? || e.RtrArrive? || e.RdmaArrive? { ArrivalProjects(c, s, e, j); }
  }

  lemma {:induction false} EndRunAppend(c: G.Config, e: G.State, a: seq<G.Event>, b: seq<G.Event>)
    requires |a| <= 1 && (a != [] ==> G.Enabled(c, e, a[0]))
    ensures G.Run(c, e, a + b) == G.Run(c, if a == [] then e else G.Step(c, e, a[0]), b)
  {
    if a == [] { assert a + b == b; } else { assert (a + b)[1..] == b; }
  }

  /** What a step is for an endpoint, and then anything else. */
  lemma StepThenRun(c: Setup, s: Net, e: Event, j: nat, rest: seq<G.Event>)
    requires Inv(c, s) && WellFormed(s) && Enabled(s, e) && j < |s.ends|
    ensures |Step(c, s, e).ends| == |s.ends|
    ensures G.Run(c.config, s.ends[j], EndEvents(c, s, e, j) + rest) == G.Run(c.config, Step(c, s, e).ends[j], rest)
  {
    StepProjects(c, s, e, j);
    if EndEvents(c, s, e, j) != [] { EventsEnabled(c, s, e, j); }
    EndRunAppend(c.config, s.ends[j], EndEvents(c, s, e, j), rest);
  }

  lemma {:induction false} RunProjects(c: Setup, s: Net, events: seq<Event>, j: nat)
    requires Inv(c, s) && AllFit(c, events) && j < |s.ends|
    ensures |Run(c, s, events).ends| == |s.ends|
    ensures Run(c, s, events).ends[j] == G.Run(c.config, s.ends[j], Trace(c, s, events, j))
    decreases |events|
  {
    InvWellFormed(c, s);
    if events != [] {
      var e := events[0];
      if Enabled(s, e) {
        StepKeepsInv(c, s, e);
        StepThenRun(c, s, e, j, Trace(c, Step(c, s, e), events[1..], j));
        RunProjects(c, Step(c, s, e), events[1..], j);
      } else {
        RunProjects(c, s, events[1..], j);
      }
    }
  }

  /** So the endpoint of a rank is, after any run of the network, where a run of its own leaves it: what holds of
      every run of one endpoint holds at every rank. */
  lemma EndpointRun(c: Setup, n: nat, opener: nat, events: seq<Event>, i: nat)
    requires n <= G.RANKS && opener < MAX_POOLS && AllFit(c, events) && i < n
    ensures var s := Reached(c, n, opener, events);
      |s.ends| == n && s.ends[i] == O.Reached(c.config, Trace(c, Initial(n, opener), events, i))
  {
    InitialInv(c, n, opener);
    RunProjects(c, Initial(n, opener), events, i);
  }

  /** In every run of the network each completed receive, at any rank, has got the bytes of its message, once. */
  lemma EndToEndEverywhere(c: Setup, n: nat, opener: nat, events: seq<Event>, i: nat, r: nat)
    requires n <= G.RANKS && opener < MAX_POOLS && AllFit(c, events) && i < n
    ensures var s := Reached(c, n, opener, events);
      |s.ends| == n && (r < |s.ends[i].reqs| && s.ends[i].reqs[r].completions > 0 ==> O.GotItsMessage(s.ends[i], r))
  {
    ReachedInv(c, n, opener, events);
    assert EndOk(c, Reached(c, n, opener, events).ends[i], n);
    EndpointRun(c, n, opener, events, i);
    O.EndToEnd(c.config, Trace(c, Initial(n, opener), events, i), r);
  }

  /** And what the receives of a rank for one source and tag, posted one at a time, have got so far are the first
      messages sent to it by that source under that tag, in order. */
  lemma ChannelsEverywhere(c: Setup, n: nat, opener: nat, events: seq<Event>, i: nat, src: nat, tag: nat)
    requires n <= G.RANKS && opener < MAX_POOLS && AllFit(c, events) && i < n
    ensures var s := Reached(c, n, opener, events);
      && |s.ends| == n && |s.ends[i].recvs| == |s.ends[i].reqs|
      && (H.OneAtATime(s.ends[i], src, tag) ==>
            H.Prefix(H.GotUnder(s.ends[i], src, tag), H.SentUnder(s.ends[i].sends, src, tag)))
  {
    ReachedInv(c, n, opener, events);
    assert EndOk(c, Reached(c, n, opener, events).ends[i], n);
    EndpointRun(c, n, opener, events, i);
    H.ReceivedIsPrefix(c.config, Trace(c, Initial(n, opener), events, i), src, tag);
  }

  /** An RTR under way goes to the rank that sent its message; a packet that carries an RDMA write will run the
      callback of a message of its own rank that is due, and no other packet will run that one. */
  lemma CallbackAtSource(c: Setup, n: nat, opener: nat, events: seq<Event>, x: nat, p: nat)
    requires n <= G.RANKS && opener < MAX_POOLS && AllFit(c, events) && x < n
    ensures var s := Reached(c, n, opener, events);
      && |s.ends| == |s.devs| == n
      && (p in s.ends[x].rtrs ==>
            && Sender(s.ends[x], p) < n && s.ends[x].rtrs[p].cb < |s.ends[x].sends|
            && s.ends[x].sends[s.ends[x].rtrs[p].cb].src == Sender(s.ends[x], p))
      && (LongSend(s.devs[x], p) ==> CallOk(x, CtxOf(s.devs[x], p).call, s.ends))
      && (forall q :: LongSend(s.devs[x], p) && LongSend(s.devs[x], q) && p != q ==>
            CtxOf(s.devs[x], p).call != CtxOf(s.devs[x], q).call)
  {
    ReachedInv(c, n, opener, events);
    var s := Reached(c, n, opener, events);
    assert EndOk(c, s.ends[x], n) && CallsOk(x, s.devs[x], s.ends);
    if p in s.ends[x].rtrs { RtrEffect(c, s.ends[x], p); }
  }
}
