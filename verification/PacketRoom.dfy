/** Medium messages with more bytes than a packet has room for: what they do, and that no other message does it. */
module PacketRoom {
  import opened Wrappers
  import opened PacketPool
  import opened PacketPlaces
  import opened Network
  import opened NetworkRuns
  import M = MatchTable
  import G = Messaging
  import O = MessageOrder

  // ----- One send -----

  function SendOf(e: Event): G.Send
    requires e.Send?
  {
    G.Send(e.src, e.tag, e.data)
  }

  /** The packet a send goes in, if it needs one and there is one. */
  function PacketOf(c: Setup, s: Net, e: Event): Option<nat>
    requires WellFormed(s) && e.Send? && Enabled(s, e)
  {
    if G.ProtocolOf(c.config, |e.data|).Short? then None else Get(s.devs[e.src].pools, e.worker, e.steal).1
  }

  predicate GoesOut(c: Setup, s: Net, e: Event)
    requires WellFormed(s) && e.Send? && Enabled(s, e)
  {
    G.ProtocolOf(c.config, |e.data|).Short? || PacketOf(c, s, e).Some?
  }

  /** In any state a message that goes out is delivered as it was sent, and written into its own packet only, if and
      only if it fits. */
  lemma IntactIffFits(c: Setup, s: Net, e: Event)
    requires WellFormed(s) && e.Send? && Enabled(s, e) && GoesOut(c, s, e)
    ensures var t := StepSend(c, s, e);
      && |t.devs| == |s.devs|
      && ((t.devs[e.src].overrun == s.devs[e.src].overrun && G.Delivered(c.config, SendOf(e)) == e.data) <==>
            G.Fits(c.config, SendOf(e)))
  {
    G.DeliveredIffFits(c.config, SendOf(e));
    var d := s.devs[e.src];
    assert forall p: nat :: |d.overrun + [p]| > |d.overrun|;
  }

  /** Whatever it does it does to its own packet and the next one: every other context is as before, and so is the
      next one if the message fits. */
  lemma OtherContextsKept(c: Setup, s: Net, e: Event, q: nat)
    requires WellFormed(s) && e.Send? && Enabled(s, e)
    requires PacketOf(c, s, e).Some? ==> q != PacketOf(c, s, e).value
    requires !G.Fits(c.config, SendOf(e)) && PacketOf(c, s, e).Some? ==> q != PacketOf(c, s, e).value + 1
    ensures var t := StepSend(c, s, e);
      |t.devs| == |s.devs| && CtxOf(t.devs[e.src], q) == CtxOf(s.devs[e.src], q)
  {
  }

  /** At the size the program allows for medium messages, the next packet's header and pool number are bytes of the
      message afterwards. */
  lemma NextContextIsData(c: Setup, s: Net, e: Event)
    requires WellFormed(s) && e.Send? && Enabled(s, e) && PacketOf(c, s, e).Some?
    requires c.config.maxInline < |e.data| == c.config.packetSize && c.config.room < |e.data| && |e.data| >= 4
    requires PacketOf(c, s, e).value + 1 < PACKETS
    ensures var t, p, n := StepSend(c, s, e), PacketOf(c, s, e).value, |e.data|;
      && |t.devs| == |s.devs| && t.devs[e.src].overrun == s.devs[e.src].overrun + [p + 1]
      && CtxOf(t.devs[e.src], p + 1).proto == HeaderOfCode(e.data[n - 4] as int + 256 * e.data[n - 3] as int)
      && CtxOf(t.devs[e.src], p + 1).poolid == ToInt8(e.data[n - 2] as int)
      && !(G.Delivered(c.config, SendOf(e)) == e.data)
  {
    G.DeliveredIffFits(c.config, SendOf(e));
  }

  // ----- A run of one worker that loses a packet -----

  /** One rank, which has posted one packet and one receive. */
  function Ready(): Net {
    Net([O.Recorded(G.Initial(), 0, 0)],
        [Opened(0).(pools := Pools(map[0 := 0], [UpTo(PACKETS - 1)]), posted := [PACKETS - 1],
                    ctx := map[PACKETS - 1 := FRESH])])
  }

  lemma {:induction false} RunCons(c: Setup, s: Net, e: Event, rest: seq<Event>)
    requires WellFormed(s)
    ensures Run(c, s, [e] + rest) == Run(c, if Enabled(s, e) then Step(c, s, e) else s, rest)
  {
    assert ([e] + rest)[1..] == rest;
  }

  lemma TopOfPool(n: nat)
    requires n > 0
    ensures PoolsOk(Pools(map[0 := 0], [UpTo(n)]))
    ensures Get(Pools(map[0 := 0], [UpTo(n)]), 0, 0) == (Pools(map[0 := 0], [UpTo(n - 1)]), Some(n - 1))
  {
    OnePoolOk(n);
    assert UpTo(n)[..n - 1] == UpTo(n - 1) && UpTo(n)[n - 1] == n - 1;
    assert [UpTo(n)][0 := UpTo(n - 1)] == [UpTo(n - 1)];
  }

  lemma OnePoolOk(n: nat)
    ensures PoolsOk(Pools(map[0 := 0], [UpTo(n)]))
  {
    assert map[0 := 0 as nat].Keys == {0};
  }

  lemma InitialOne()
    ensures Initial(1, 0) == Net([G.Initial()], [Opened(0)]) && WellFormed(Initial(1, 0))
  {
    OnePoolOk(PACKETS);
  }

  lemma PostedFresh(d: Device, p: nat)
    requires d.ctx == map[] && d.posted == []
    ensures Post(d, p, 0) == d.(posted := [p], ctx := map[p := FRESH])
  {
    assert ToInt8(0) == 0;
  }

  lemma FirstPosted()
    ensures Post(Opened(0).(pools := Pools(map[0 := 0], [UpTo(PACKETS - 1)])), PACKETS - 1, 0) == Ready().devs[0]
  {
    PostedFresh(Opened(0).(pools := Pools(map[0 := 0], [UpTo(PACKETS - 1)])), PACKETS - 1);
  }

  lemma PostFirst(c: Setup)
    ensures WellFormed(Initial(1, 0)) && Enabled(Initial(1, 0), PostRecv(0, 0, 0))
    ensures Step(c, Initial(1, 0), PostRecv(0, 0, 0)) == Ready().(ends := [G.Initial()])
  {
    InitialOne();
    TopOfPool(PACKETS);
    FirstPosted();
    assert [Opened(0)][0 := Ready().devs[0]] == [Ready().devs[0]];
  }

  lemma ReadyReached(c: Setup, rest: seq<Event>)
    ensures WellFormed(Ready())
    ensures Reached(c, 1, 0, [PostRecv(0, 0, 0), Recv(0, 0, 0, 0)] + rest) == Run(c, Ready(), rest)
  {
    OnePoolOk(PACKETS - 1);
    PostFirst(c);
    var s := Ready().(ends := [G.Initial()]);
    assert [PostRecv(0, 0, 0), Recv(0, 0, 0, 0)] + rest == [PostRecv(0, 0, 0)] + ([Recv(0, 0, 0, 0)] + rest);
    RunCons(c, Initial(1, 0), PostRecv(0, 0, 0), [Recv(0, 0, 0, 0)] + rest);
    ReceiveWaits(c);
    RunCons(c, s, Recv(0, 0, 0, 0), rest);
  }

  lemma ReceiveWaits(c: Setup)
    ensures var s := Ready().(ends := [G.Initial()]);
      WellFormed(s) && Enabled(s, Recv(0, 0, 0, 0)) && Step(c, s, Recv(0, 0, 0, 0)) == Ready()
  {
    OnePoolOk(PACKETS - 1);
    O.InitialInv(c.config);
    O.NobodyWaits(c.config, 0, 0);
    O.RecvFinds(c.config, G.Initial(), 0, 0);
  }

  /** The device once the message was copied into the packet before the posted one. */
  lemma CopiedOver(c: Setup, data: G.Bytes)
    requires c.config.maxInline < |data| <= c.config.packetSize && c.config.room < |data|
    ensures WellFormed(Ready()) && Enabled(Ready(), SendBy(0, data))
    ensures var t := Step(c, Ready(), SendBy(0, data));
      && t.ends == [O.OneSent(c.config, data)] && |t.devs| == 1
      && t.devs[0].pools == Pools(map[0 := 0], [UpTo(PACKETS - 2)]) && t.devs[0].posted == [PACKETS - 1]
      && t.devs[0].lost == [] && CtxOf(t.devs[0], PACKETS - 1) == Overwritten(c.config, FRESH, data)
  {
    OnePoolOk(PACKETS - 1);
    TopOfPool(PACKETS - 1);
  }

  /** The message meets the receive as data. */
  lemma MeetsReceive(c: Setup, data: G.Bytes, p: nat)
    requires |data| <= c.config.packetSize
    ensures var end := O.OneSent(c.config, data);
      && G.WireOf(end, 0) != [] && ArrivingHeader(c, end, 0) == DataHeader
      && !G.Lookup(c.config, end, G.ArrivePost(end, 0, p)).inserted
  {
    O.OneReceive(c.config);
    O.ArriveLooksUp(c.config, O.OneSent(c.config, data), 0, p);
  }

  lemma FreedAstray(c: Setup, d: Device, p: nat)
    requires PoolsOk(d.pools) && |d.pools.lists| == 1 && CtxOf(d, p).proto.DataHeader? && CtxOf(d, p).poolid !in {-1, 0}
    requires !c.completion.Queue?
    ensures Collect(c, d, 0, p) == d.(lost := d.lost + [p])
  {
  }

  /** The message arrives in the posted packet and meets the receive; that packet is put back through a number that
      was a byte of the message. */
  lemma PutBackAstray(c: Setup, s: Net, data: G.Bytes)
    requires |s.ends| == |s.devs| == 1 && s.ends[0] == O.OneSent(c.config, data) && |data| <= c.config.packetSize
    requires s.devs[0].pools == Pools(map[0 := 0], [UpTo(PACKETS - 2)]) && s.devs[0].posted == [PACKETS - 1]
    requires !c.completion.Queue? && CtxOf(s.devs[0], PACKETS - 1).poolid !in {-1, 0}
    ensures WellFormed(s) && Enabled(s, Arrive(0, 0, 0, 0))
    ensures var t := Step(c, s, Arrive(0, 0, 0, 0));
      |t.devs| == 1 && t.devs[0].pools == s.devs[0].pools && t.devs[0].lost == s.devs[0].lost + [PACKETS - 1]
  {
    OnePoolOk(PACKETS - 2);
    MeetsReceive(c, data, PACKETS - 1);
    var d := s.devs[0];
    FreedAstray(c, SetProto(d.(posted := Remove(d.posted, 0)), PACKETS - 1, DataHeader), PACKETS - 1);
  }

  lemma TwoEvents(c: Setup, s: Net, a: Event, b: Event)
    requires WellFormed(s) && Enabled(s, a) && WellFormed(Step(c, s, a)) && Enabled(Step(c, s, a), b)
    ensures Run(c, s, [a, b]) == Step(c, Step(c, s, a), b)
  {
    assert [a, b] == [a] + [b] && [b] == [b] + [];
    RunCons(c, s, a, [b]);
    RunCons(c, Step(c, s, a), b, []);
  }

  lemma ByteIsNoPool(c: G.Config, data: G.Bytes)
    requires |data| == c.packetSize && |data| >= 4 && data[|data| - 2] != 0 && data[|data| - 2] != 255
    ensures Overwritten(c, FRESH, data).poolid !in {-1, 0}
  {
  }

  lemma CopyThenArrive(c: Setup, data: G.Bytes)
    requires c.config.maxInline < |data| == c.config.packetSize && c.config.room < |data| && |data| >= 4
    requires !c.completion.Queue? && data[|data| - 2] != 0 && data[|data| - 2] != 255
    ensures var t := Run(c, Ready(), [SendBy(0, data), Arrive(0, 0, 0, 0)]);
      |t.devs| == 1 && |t.devs[0].pools.lists| == 1 && t.devs[0].lost == [PACKETS - 1]
  {
    CopiedOver(c, data);
    ByteIsNoPool(c.config, data);
    var s := Step(c, Ready(), SendBy(0, data));
    assert |s.devs| == |s.ends| == 1;
    PutBackAstray(c, s, data);
    TwoEvents(c, Ready(), SendBy(0, data), Arrive(0, 0, 0, 0));
  }

  /** With a single worker, a message of the size allowed for medium ones can lose a packet of the device it is sent
      from. */
  lemma LosesPacketByCopy(c: Setup, data: G.Bytes)
    requires c.config.maxInline < |data| == c.config.packetSize && c.config.room < |data| && |data| >= 4
    requires !c.completion.Queue? && data[|data| - 2] != 0 && data[|data| - 2] != 255
    ensures var s := Reached(c, 1, 0, [PostRecv(0, 0, 0), Recv(0, 0, 0, 0)] + [SendBy(0, data), Arrive(0, 0, 0, 0)]);
      |s.devs| == 1 && |s.devs[0].pools.lists| == 1 && s.devs[0].lost == [PACKETS - 1]
  {
    ReadyReached(c, [SendBy(0, data), Arrive(0, 0, 0, 0)]);
    CopyThenArrive(c, data);
  }
}
