/** Which packet a step takes, what it marks it with, and to which pool it gives it back. */
module PacketHomes {
  import opened Wrappers
  import opened PacketPool
  import opened PacketPlaces
  import opened Network
  import opened NetworkRuns
  import G = Messaging
  import O = MessageOrder

  // ----- Giving back -----

  /** Of one device: the packet went on top of the worker's own pool. */
  ghost predicate ToOwn(d: Device, d': Device, w: nat, p: nat) {
    && w in d'.pools.local && OwnList(d'.pools, w) == OwnList(d.pools, w) + [p]
    && SameBut(d.pools, d'.pools, d'.pools.local[w])
  }

  /** It went on top of pool `id`, or is lost if there is no such pool. */
  ghost predicate ToPool(d: Device, d': Device, id: int, p: nat) {
    if 0 <= id < |d.pools.lists| then
      ListOf(d'.pools, id) == ListOf(d.pools, id) + [p] && SameBut(d.pools, d'.pools, id) && d'.lost == d.lost
    else d'.pools == d.pools && d'.lost == d.lost + [p]
  }

  /** A packet is freed to the top of the worker's own pool. */
  lemma FreeExact(d: Device, w: nat, p: nat)
    requires PoolsOk(d.pools)
    ensures var t := Free(d, w, p); t == d.(pools := t.pools) && ToOwn(d, t, w, p)
  {
    PutExact(d.pools, w, p);
  }

  /** A data packet is freed to the pool it remembers, with -1 to the worker's own. */
  lemma FreeDataPlace(d: Device, w: nat, p: nat)
    requires PoolsOk(d.pools)
    ensures var (t, id) := (FreeData(d, w, p), CtxOf(d, p).poolid);
      && (id == -1 ==> t == Free(d, w, p))
      && (id != -1 ==> ToPool(d, t, id, p) && t == d.(pools := t.pools, lost := t.lost))
  {
    PutBackExact(d.pools, w, p, CtxOf(d, p).poolid);
  }

  /** A packet that has been sent goes to the own pool of the worker that sees it sent if it was an RTS or carried an RDMA
      write; one that carried data goes to the pool it remembers, if it remembers one. */
  lemma SentPlace(c: Setup, s: Net, e: Event)
    requires WellFormed(s) && Enabled(s, e) && e.SendDone?
    ensures var (t, d) := (StepSent(c, s, e).devs, s.devs[e.rank]);
      var (p, x) := (d.sends[e.slot], CtxOf(d, d.sends[e.slot]));
      && |t| == |s.devs|
      && t[e.rank].sends == Remove(d.sends, e.slot)
      && (x.proto in {RtsHeader, LongHeader} || (x.proto.DataHeader? && x.poolid == -1) ==> ToOwn(d, t[e.rank], e.worker, p))
      && (x.proto.DataHeader? && x.poolid != -1 ==> ToPool(d, t[e.rank], x.poolid, p))
  {
    var d := s.devs[e.rank];
    var p := d.sends[e.slot];
    var u := d.(sends := Remove(d.sends, e.slot));
    FreeExact(u, e.worker, p);
    FreeDataPlace(u, e.worker, p);
    if CtxOf(d, p).proto.RtrHeader? { DispatchSends(c.completion, u, e.worker, p); }
  }

  lemma DispatchSends(ce: Completion, d: Device, w: nat, p: nat)
    requires PoolsOk(d.pools)
    ensures Dispatch(ce, d, w, p).sends == d.sends
  {
  }

  /** The packet of a freed request goes to the own pool of the worker that frees it. */
  lemma FreedPlace(c: Setup, s: Net, e: Event)
    requires WellFormed(s) && Enabled(s, e) && e.ReqFree?
    ensures var (t, d) := (Step(c, s, e).devs, s.devs[e.rank]);
      |t| == |s.devs| && t[e.rank].user == Remove(d.user, e.slot) && ToOwn(d, t[e.rank], e.worker, d.user[e.slot])
  {
    var d := s.devs[e.rank];
    FreeExact(d.(user := Remove(d.user, e.slot)), e.worker, d.user[e.slot]);
  }

  /** The place of a packet whose receive has completed, if the program is not to be given it. */
  ghost predicate ToHome(d: Device, d': Device, w: nat, p: nat) {
    var id := CtxOf(d, p).poolid;
    if id == -1 then ToOwn(d, d', w, p) else ToPool(d, d', id, p)
  }

  lemma DispatchPlace(ce: Completion, d: Device, w: nat, p: nat)
    requires PoolsOk(d.pools)
    ensures var t := Dispatch(ce, d, w, p);
      if ce.Queue? then t == d.(queue := d.queue + [p]) else ToHome(d, t, w, p) && t.queue == d.queue
  {
    FreeExact(d, w, p);
    FreeDataPlace(d, w, p);
  }

  /** A data packet that meets its receive goes to the completion queue, and without one to the pool it remembers. */
  lemma ArrivePlace(c: Setup, s: Net, e: Event)
    requires WellFormed(s) && Enabled(s, e) && e.Arrive?
    requires !ArrivingHeader(c, s.ends[e.rank], e.src).RtsHeader?
    requires !G.Lookup(c.config, s.ends[e.rank], G.ArrivePost(s.ends[e.rank], e.src, s.devs[e.rank].posted[e.slot])).inserted
    ensures var (t, d) := (StepArrive(c, s, e).devs, s.devs[e.rank]);
      && |t| == |s.devs|
      && if c.completion.Queue? then t[e.rank].queue == d.queue + [d.posted[e.slot]]
         else ToHome(d, t[e.rank], e.worker, d.posted[e.slot])
  {
    var (end, d) := (s.ends[e.rank], s.devs[e.rank]);
    var p := d.posted[e.slot];
    var u := SetProto(d.(posted := Remove(d.posted, e.slot)), p, ArrivingHeader(c, end, e.src));
    DispatchPlace(c.completion, u, e.worker, p);
  }

  lemma RecvPlace(c: Setup, s: Net, e: Event)
    requires WellFormed(s) && Enabled(s, e) && e.Recv?
    requires var out := G.Lookup(c.config, s.ends[e.rank], G.RecvPost(s.ends[e.rank], e.src, e.tag));
      !out.inserted && out.value.PktItem? && !CtxOf(s.devs[e.rank], out.value.packet).proto.RtsHeader?
    ensures var (t, d, end) := (StepRecv(c, s, e).devs, s.devs[e.rank], s.ends[e.rank]);
      var p := G.Lookup(c.config, end, G.RecvPost(end, e.src, e.tag)).value.packet;
      && |t| == |s.devs|
      && if c.completion.Queue? then t[e.rank].queue == d.queue + [p] else ToHome(d, t[e.rank], e.worker, p)
  {
    var end := s.ends[e.rank];
    DispatchPlace(c.completion, s.devs[e.rank], e.worker,
                  G.Lookup(c.config, end, G.RecvPost(end, e.src, e.tag)).value.packet);
  }

  lemma DispatchKeeps(ce: Completion, d: Device, w: nat, p: nat)
    requires PoolsOk(d.pools) && w < MAX_POOLS
    ensures var t := Dispatch(ce, d, w, p); PoolsOk(t.pools) && t.posted == d.posted
  {
    var id := CtxOf(d, p).poolid;
    PutKeeps(d.pools, w, p);
    if Exists(d.pools, id) { PutToKeeps(d.pools, id, p); }
  }

  lemma UnrefKeepsPools(c: Setup, e: G.State, d: Device, w: nat, p: nat)
    requires PoolsOk(d.pools) && w < MAX_POOLS
    ensures var t := Unref(c, e, d, w, p); PoolsOk(t.pools) && t.posted == d.posted
  {
    DispatchKeeps(c.completion, d, w, p);
  }

  lemma NoticeToOwn(c: Setup, s: Net, e: Event)
    requires WellFormed(s) && Enabled(s, e) && e.RdmaArrive?
    ensures var (t, d) := (StepRdmaArrive(c, s, e), s.devs[e.rank]);
      && |t.devs| == |s.devs| && t.devs[e.rank].posted == Remove(d.posted, e.slot)
      && var own := OwnList(t.devs[e.rank].pools, e.worker); own != [] && own[|own| - 1] == d.posted[e.slot]
  {
    var d := s.devs[e.rank];
    UnrefKeepsPools(c, s.ends[e.rank], d, e.worker, e.packet);
    var u := Unref(c, s.ends[e.rank], d, e.worker, e.packet);
    FreeExact(u.(posted := Remove(u.posted, e.slot)), e.worker, u.posted[e.slot]);
  }

  // ----- Taking, and marking -----

  /** The packet that a get gives: the newest of the own pool, or else the oldest of the pool drawn. */
  function Given(s: Pools, w: nat, steal: nat): Option<nat> {
    var own, drawn := OwnList(s, w), ListOf(s, steal);
    if own != [] then Some(own[|own| - 1]) else if drawn != [] then Some(drawn[0]) else None
  }

  /** A short message takes no packet.  Any other takes the one the pool gives, and is turned away if it gives none: the
      message is on its way with its bytes if it is medium and without them if it is long, and the packet says which.
      A medium message of more than 1024 bytes has its packet remember the sender's own pool, all others -1. */
  lemma SendExact(c: Setup, s: Net, e: Event)
    requires WellFormed(s) && Enabled(s, e) && e.Send? && c.config.maxInline <= c.config.packetSize
    ensures var (t, d, n) := (StepSend(c, s, e), s.devs[e.src], |e.data|);
      var (p, end, end') := (Given(d.pools, e.worker, e.steal), s.ends[e.dst], t.ends[e.dst]);
      var goes := n <= c.config.maxInline || p.Some?;
      && |t.devs| == |s.devs| && |t.ends| == |s.ends|
      && end'.sends == (if goes then end.sends + [G.Send(e.src, e.tag, e.data)] else end.sends)
      && G.WireOf(end', e.src) == (if !goes then G.WireOf(end, e.src) else
           G.WireOf(end, e.src) + [G.WirePacket(|end.sends|, e.tag, if n <= c.config.packetSize then e.data else [])])
      && (n <= c.config.maxInline ==> t.devs == s.devs)
      && t.devs[e.src].sends == (if n > c.config.maxInline && p.Some? then d.sends + [p.value] else d.sends)
  {
    GetExact(s.devs[e.src].pools, e.worker, e.steal);
  }

  lemma SendMarks(c: Setup, s: Net, e: Event)
    requires WellFormed(s) && Enabled(s, e) && e.Send? && c.config.maxInline < |e.data|
    requires Given(s.devs[e.src].pools, e.worker, e.steal).Some?
    ensures var (t, p) := (StepSend(c, s, e).devs, Given(s.devs[e.src].pools, e.worker, e.steal).value);
      && |t| == |s.devs| && e.worker in t[e.src].pools.local
      && var x := CtxOf(t[e.src], p);
         && x.proto == (if |e.data| <= c.config.packetSize then DataHeader else RtsHeader)
         && x.poolid == if 1024 < |e.data| <= c.config.packetSize then ToInt8(t[e.src].pools.local[e.worker]) else -1
  {
    var d := s.devs[e.src];
    GetExact(d.pools, e.worker, e.steal);
    LocalLists(d.pools, e.worker);
  }

  /** An arriving packet carries what the sender's header says and remembers the pool it was posted from, until it answers
      an RTS: then it is an RTR and remembers no pool. */
  lemma ArriveMarks(c: Setup, s: Net, e: Event)
    requires WellFormed(s) && Enabled(s, e) && e.Arrive?
    ensures var (t, d, end) := (StepArrive(c, s, e).devs, s.devs[e.rank], s.ends[e.rank]);
      var p := d.posted[e.slot];
      var (header, waits) := (ArrivingHeader(c, end, e.src), G.Lookup(c.config, end, G.ArrivePost(end, e.src, p)).inserted);
      && |t| == |s.devs| && t[e.rank].posted == Remove(d.posted, e.slot)
      && (header.RtsHeader? && !waits ==>
            && t[e.rank].sends == d.sends + [p]
            && CtxOf(t[e.rank], p).proto == RtrHeader && CtxOf(t[e.rank], p).poolid == -1)
      && (waits || !header.RtsHeader? ==>
            && t[e.rank].sends == d.sends
            && CtxOf(t[e.rank], p).proto == header && CtxOf(t[e.rank], p).poolid == CtxOf(d, p).poolid)
  {
  }

  /** A receive that finds an RTS answers it with the packet that brought it. */
  lemma RecvMarks(c: Setup, s: Net, e: Event)
    requires WellFormed(s) && Enabled(s, e) && e.Recv?
    ensures var (t, d, end) := (StepRecv(c, s, e).devs, s.devs[e.rank], s.ends[e.rank]);
      var out := G.Lookup(c.config, end, G.RecvPost(end, e.src, e.tag));
      && |t| == |s.devs|
      && (out.inserted || !out.value.PktItem? ==> t == s.devs)
      && (!out.inserted && out.value.PktItem? && CtxOf(d, out.value.packet).proto.RtsHeader? ==>
            var p := out.value.packet;
            && t[e.rank].sends == d.sends + [p]
            && CtxOf(t[e.rank], p).proto == RtrHeader && CtxOf(t[e.rank], p).poolid == -1)
  {
  }

  /** The engine posts a packet if it has fewer than 64 posted and the pool gives one, which then remembers the own pool of
      the worker that posted it. */
  lemma PostExact(c: Setup, s: Net, e: Event)
    requires WellFormed(s) && Enabled(s, e) && e.PostRecv?
    ensures var (t, d) := (StepPost(s, e), s.devs[e.rank]);
      var p := Given(d.pools, e.worker, e.steal);
      && |t.devs| == |s.devs| && t.ends == s.ends
      && if |d.posted| >= 64 then t == s
         else if p.None? then t.devs[e.rank].posted == d.posted
         else
           && t.devs[e.rank].posted == d.posted + [p.value] && e.worker in t.devs[e.rank].pools.local
           && CtxOf(t.devs[e.rank], p.value).poolid == ToInt8(t.devs[e.rank].pools.local[e.worker])
  {
    GetExact(s.devs[e.rank].pools, e.worker, e.steal);
    LocalLists(s.devs[e.rank].pools, e.worker);
  }

  // ----- How many are posted -----

  /** Only the engine posts, and one packet at a time. */
  ghost predicate PostsOne(s: Net, t: Net, e: Event, i: nat)
    requires i < |s.devs|
  {
    && |t.devs| == |s.devs|
    && (|t.devs[i].posted| <= |s.devs[i].posted|
        || (e.PostRecv? && e.rank == i && |t.devs[i].posted| == |s.devs[i].posted| + 1 <= MAX_POSTED))
  }

  lemma SendPostsOne(c: Setup, s: Net, e: Event, i: nat)
    requires WellFormed(s) && e.Send? && Enabled(s, e) && i < |s.devs|
    ensures PostsOne(s, StepSend(c, s, e), e, i)
  {
  }

  lemma RecvPostsOne(c: Setup, s: Net, e: Event, i: nat)
    requires WellFormed(s) && e.Recv? && Enabled(s, e) && i < |s.devs|
    ensures PostsOne(s, StepRecv(c, s, e), e, i)
  {
  }

  lemma ArrivePostsOne(c: Setup, s: Net, e: Event, i: nat)
    requires WellFormed(s) && e.Arrive? && Enabled(s, e) && i < |s.devs|
    ensures PostsOne(s, StepArrive(c, s, e), e, i)
  {
  }

  lemma SentPostsOne(c: Setup, s: Net, e: Event, i: nat)
    requires WellFormed(s) && e.SendDone? && Enabled(s, e) && i < |s.devs|
    ensures PostsOne(s, StepSent(c, s, e), e, i)
  {
  }

  lemma RtrArrivePostsOne(c: Setup, s: Net, e: Event, i: nat)
    requires WellFormed(s) && e.RtrArrive? && Enabled(s, e) && i < |s.devs|
    ensures PostsOne(s, StepRtrArrive(c, s, e), e, i)
  {
  }

  lemma NoticePostsOne(c: Setup, s: Net, e: Event, i: nat)
    requires WellFormed(s) && e.RdmaArrive? && Enabled(s, e) && i < |s.devs|
    ensures PostsOne(s, StepRdmaArrive(c, s, e), e, i)
  {
    UnrefKeepsPools(c, s.ends[e.rank], s.devs[e.rank], e.worker, e.packet);
  }

  lemma PostPostsOne(s: Net, e: Event, i: nat)
    requires WellFormed(s) && e.PostRecv? && Enabled(s, e) && i < |s.devs|
    ensures PostsOne(s, StepPost(s, e), e, i)
  {
  }

  lemma StepPostsOne(c: Setup, s: Net, e: Event, i: nat)
    requires WellFormed(s) && Enabled(s, e) && i < |s.devs|
    ensures PostsOne(s, Step(c, s, e), e, i)
  {
    match e
    case Send(_, _, _, _, _, _) => SendPostsOne(c, s, e, i);
    case Recv(_, _, _, _) => RecvPostsOne(c, s, e, i);
    case PostRecv(_, _, _) => PostPostsOne(s, e, i);
    case Arrive(_, _, _, _) => ArrivePostsOne(c, s, e, i);
    case SendDone(_, _, _) => SentPostsOne(c, s, e, i);
    case RtrArrive(_, _, _) => RtrArrivePostsOne(c, s, e, i);
    case RdmaArrive(_, _, _, _) => NoticePostsOne(c, s, e, i);
    case CqPop(_) =>
    case ReqFree(_, _, _) =>
  }

  lemma {:induction false} RunPostsFew(c: Setup, s: Net, events: seq<Event>, i: nat)
    requires i < |s.devs| && |s.devs[i].posted| <= MAX_POSTED
    ensures var t := Run(c, s, events); i < |t.devs| && |t.devs[i].posted| <= MAX_POSTED
    decreases |events|
  {
    if events != [] && WellFormed(s) {
      var e := events[0];
      if Enabled(s, e) {
        StepPostsOne(c, s, e, i);
        RunPostsFew(c, Step(c, s, e), events[1..], i);
      } else {
        RunPostsFew(c, s, events[1..], i);
      }
    }
  }

  /** In every run a device never has more than 64 packets posted. */
  lemma AtMostPosted(c: Setup, n: nat, opener: nat, events: seq<Event>, i: nat)
    requires i < n
    ensures var s := Run(c, Initial(n, opener), events); i < |s.devs| && |s.devs[i].posted| <= MAX_POSTED
  {
    RunPostsFew(c, Initial(n, opener), events, i);
  }
}
