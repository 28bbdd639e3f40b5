/** A network of ranks, each with a device of 1024 packets and an endpoint.  A step is an event at one rank: a call of
    the program, or something that the network reports, and the handler that the runtime runs for it.  Which packet an
    event is about is up to the network; that the handler finds that packet where it takes it from is proved. */
module Network {
  import opened Wrappers
  import opened PacketPool
  import opened PacketPlaces
  import M = MatchTable
  import G = Messaging
  import O = MessageOrder
  import R = RingBuffer

  /** How many receives are kept posted, and the size above which a medium message remembers its sender's pool. */
  const MAX_POSTED: nat := 64
  const MARKED_SIZE: nat := 1024

  datatype Setup = Setup(config: G.Config, completion: Completion)

  datatype Net = Net(ends: seq<G.State>, devs: seq<Device>)

  /** `worker` is who runs the call or handler, `steal` the pool drawn to steal from; `slot` says which of the posted
      packets, packets being sent, or popped requests it is. */
  datatype Event =
    | Send(src: nat, dst: nat, tag: nat, data: G.Bytes, worker: nat, steal: nat)
    | Recv(rank: nat, src: nat, tag: nat, worker: nat)
    | PostRecv(rank: nat, worker: nat, steal: nat)
    | Arrive(rank: nat, src: nat, slot: nat, worker: nat)
    | SendDone(rank: nat, slot: nat, worker: nat)
    | RtrArrive(rank: nat, packet: nat, slot: nat)
    | RdmaArrive(rank: nat, packet: nat, slot: nat, worker: nat)
    | CqPop(rank: nat)
    | ReqFree(rank: nat, slot: nat, worker: nat)

  /** The rank that the RTR of packet p is sent to: the one its receive was posted for. */
  function Sender(e: G.State, p: nat): nat
    requires p in e.rtrs
  {
    if e.rtrs[p].target < |e.recvs| then e.recvs[e.rtrs[p].target].src else 0
  }

  /** What the network and the program may do. */
  predicate Enabled(s: Net, e: Event)
    requires |s.ends| == |s.devs|
  {
    var n := |s.ends|;
    match e
    case Send(src, dst, tag, _, w, _) => src < n && dst < n && tag < G.TAGS && w < MAX_POOLS
    case Recv(i, src, tag, w) => i < n && src < n && tag < G.TAGS && w < MAX_POOLS
    case PostRecv(i, w, _) => i < n && w < MAX_POOLS
    case Arrive(i, src, k, w) => i < n && G.WireOf(s.ends[i], src) != [] && k < |s.devs[i].posted| && w < MAX_POOLS
    case SendDone(i, k, w) => i < n && k < |s.devs[i].sends| && w < MAX_POOLS
    case RtrArrive(i, p, k) =>
      i < n && p in s.ends[i].rtrs && Sender(s.ends[i], p) < n && k < |s.devs[Sender(s.ends[i], p)].posted|
    case RdmaArrive(i, p, k, w) => i < n && p in s.ends[i].rdmas && k < |s.devs[i].posted| && w < MAX_POOLS
    case CqPop(i) => i < n && s.devs[i].queue != []
    case ReqFree(i, k, w) => i < n && k < |s.devs[i].user| && w < MAX_POOLS
  }

  ghost predicate WellFormed(s: Net) {
    |s.ends| == |s.devs| && forall i :: 0 <= i < |s.devs| ==> PoolsOk(s.devs[i].pools)
  }

  // ----- Handlers -----

  /** Answer an RTS: the packet becomes the RTR. */
  function HandleRts(d: Device, p: nat): Device {
    Emit(d, p, Context(RtrHeader, -1, CtxOf(d, p).call))
  }

  /** A packet that met its receive. */
  function Collect(c: Setup, d: Device, w: nat, p: nat): Device
    requires PoolsOk(d.pools)
  {
    if CtxOf(d, p).proto.RtsHeader? then HandleRts(d, p) else Dispatch(c.completion, d, w, p)
  }

  /** A reference to a rendezvous packet goes; with the last one its completion is dispatched. */
  function Unref(c: Setup, e: G.State, d: Device, w: nat, p: nat): Device
    requires PoolsOk(d.pools)
  {
    if p in e.packets && e.packets[p].Served? && e.packets[p].ref - 1 == 0 then Dispatch(c.completion, d, w, p) else d
  }

  /** What a medium or long send makes its packet remember. */
  function SendContext(c: Setup, x: G.Send, pid: nat): Context {
    if G.Eager(c.config, x) then Context(DataHeader, if |x.data| > MARKED_SIZE then ToInt8(pid) else -1, Call(0, 0))
    else Context(RtsHeader, -1, Call(0, 0))
  }

  /** Send in packet p: the data of a medium message is copied into it, a long message only announces itself. */
  function SendIn(c: Setup, d: Device, p: nat, x: G.Send, pid: nat): Device {
    CopyInto(c.config, Emit(d, p, SendContext(c, x, pid)), p, G.Payload(c.config, x))
  }

  /** A message sent fits the packet it goes in, or goes in none. */
  predicate EventFits(c: Setup, e: Event) {
    e.Send? ==> G.Fits(c.config, G.Send(e.src, e.tag, e.data))
  }

  function AtEnd(s: Net, i: nat, e: G.State): Net
    requires i < |s.ends|
  {
    s.(ends := s.ends[i := e])
  }

  function AtDev(s: Net, i: nat, d: Device): Net
    requires i < |s.devs|
  {
    s.(devs := s.devs[i := d])
  }

  /** `lc_send`: inline, or in a packet from the pool; without one it is to be tried again. */
  function StepSend(c: Setup, s: Net, e: Event): Net
    requires WellFormed(s) && e.Send? && Enabled(s, e)
  {
    var x := G.Send(e.src, e.tag, e.data);
    var sent := AtEnd(s, e.dst, G.StepSend(c.config, s.ends[e.dst], x));
    if G.ProtocolOf(c.config, |e.data|).Short? then sent
    else
      var (pools, r) := Get(s.devs[e.src].pools, e.worker, e.steal);
      var d := s.devs[e.src].(pools := pools);
      if r.None? then AtDev(s, e.src, d)
      else AtDev(sent, e.src, SendIn(c, d, r.value, x, LocalId(pools, e.worker)))
  }

  /** `lc_recv`. */
  function StepRecv(c: Setup, s: Net, e: Event): Net
    requires WellFormed(s) && e.Recv? && Enabled(s, e)
  {
    var end := s.ends[e.rank];
    var out := G.Lookup(c.config, end, G.RecvPost(end, e.src, e.tag));
    var t := AtEnd(s, e.rank, G.StepRecv(c.config, end, e.src, e.tag));
    if out.inserted || !out.value.PktItem? then t
    else AtDev(t, e.rank, Collect(c, s.devs[e.rank], e.worker, out.value.packet))
  }

  /** The engine keeps receives posted as long as the pool gives packets. */
  function StepPost(s: Net, e: Event): Net
    requires WellFormed(s) && e.PostRecv? && Enabled(s, e)
  {
    var d := s.devs[e.rank];
    if |d.posted| < MAX_POSTED then
      var (pools, r) := Get(d.pools, e.worker, e.steal);
      var t := d.(pools := pools);
      AtDev(s, e.rank, if r.None? then t else Post(t, r.value, LocalId(pools, e.worker)))
    else s
  }

  function ArrivingHeader(c: Setup, end: G.State, src: nat): Header
    requires G.WireOf(end, src) != []
  {
    var m := G.WireOf(end, src)[0].msg;
    if m < |end.sends| then HeaderOf(c.config, end.sends[m]) else DataHeader
  }

  /** A message or an RTS arrived in a posted packet. */
  function StepArrive(c: Setup, s: Net, e: Event): Net
    requires WellFormed(s) && e.Arrive? && Enabled(s, e)
  {
    var end, d := s.ends[e.rank], s.devs[e.rank];
    var p := d.posted[e.slot];
    var t := SetProto(d.(posted := Remove(d.posted, e.slot)), p, ArrivingHeader(c, end, e.src));
    var out := G.Lookup(c.config, end, G.ArrivePost(end, e.src, p));
    AtDev(AtEnd(s, e.rank, G.StepArrive(c.config, end, e.src, p)), e.rank,
          if out.inserted then t else Collect(c, t, e.worker, p))
  }

  /** The network has sent a packet. */
  function StepSent(c: Setup, s: Net, e: Event): Net
    requires WellFormed(s) && e.SendDone? && Enabled(s, e)
  {
    var end, d := s.ends[e.rank], s.devs[e.rank];
    var p := d.sends[e.slot];
    var t := d.(sends := Remove(d.sends, e.slot));
    match CtxOf(d, p).proto
    case RtrHeader => AtDev(AtEnd(s, e.rank, G.Step(c.config, end, G.RtrSent(p))), e.rank, Unref(c, end, t, e.worker, p))
    case LongHeader =>
      var call := CtxOf(d, p).call;
      var u := AtDev(s, e.rank, Free(t, e.worker, p));
      if call.dst < |s.ends| then AtEnd(u, call.dst, G.Step(c.config, s.ends[call.dst], G.LongSent(call.msg))) else u
    case RtsHeader => AtDev(s, e.rank, Free(t, e.worker, p))
    case DataHeader => AtDev(s, e.rank, FreeData(t, e.worker, p))
  }

  /** An RTR arrived at the sender in a posted packet, which goes on to carry the RDMA write. */
  function StepRtrArrive(c: Setup, s: Net, e: Event): Net
    requires WellFormed(s) && e.RtrArrive? && Enabled(s, e)
  {
    var end := s.ends[e.rank];
    var x := Sender(end, e.packet);
    var d := s.devs[x];
    AtDev(AtEnd(s, e.rank, G.Step(c.config, end, G.RtrArrive(e.packet))), x,
          Emit(d.(posted := Remove(d.posted, e.slot)), d.posted[e.slot],
               Context(LongHeader, -1, Call(e.rank, end.rtrs[e.packet].cb))))
  }

  /** An RDMA write arrived; its notice used up a posted packet. */
  function StepRdmaArrive(c: Setup, s: Net, e: Event): Net
    requires WellFormed(s) && e.RdmaArrive? && Enabled(s, e)
  {
    var end := s.ends[e.rank];
    var d := Unref(c, end, s.devs[e.rank], e.worker, e.packet);
    AtDev(AtEnd(s, e.rank, G.Step(c.config, end, G.RdmaArrive(e.packet))), e.rank,
          Free(d.(posted := Remove(d.posted, e.slot)), e.worker, d.posted[e.slot]))
  }

  function Step(c: Setup, s: Net, e: Event): Net
    requires WellFormed(s) && Enabled(s, e)
  {
    match e
    case Send(_, _, _, _, _, _) => StepSend(c, s, e)
    case Recv(_, _, _, _) => StepRecv(c, s, e)
    case PostRecv(_, _, _) => StepPost(s, e)
    case Arrive(_, _, _, _) => StepArrive(c, s, e)
    case SendDone(_, _, _) => StepSent(c, s, e)
    case RtrArrive(_, _, _) => StepRtrArrive(c, s, e)
    case RdmaArrive(_, _, _, _) => StepRdmaArrive(c, s, e)
    case CqPop(i) =>
      var d := s.devs[i];
      AtDev(s, i, d.(queue := d.queue[1..], user := d.user + [d.queue[0]]))
    case ReqFree(i, k, w) =>
      var d := s.devs[i];
      AtDev(s, i, Free(d.(user := Remove(d.user, k)), w, d.user[k]))
  }

  function Initial(n: nat, opener: nat): Net {
    Net(seq(n, i => G.Initial()), seq(n, i => Opened(opener)))
  }

  /** The state after a sequence of events; those not enabled when their turn comes do not happen. */
  ghost function Run(c: Setup, s: Net, events: seq<Event>): Net
    decreases |events|
  {
    if events == [] || !WellFormed(s) then s
    else Run(c, if Enabled(s, events[0]) then Step(c, s, events[0]) else s, events[1..])
  }

  // ----- The invariant -----

  /** Messages fit, and receives are for ranks that exist. */
  ghost predicate TrafficOk(c: Setup, sends: seq<G.Send>, recvs: seq<G.Recv>, n: nat) {
    O.AllFit(c.config, sends) && forall r :: 0 <= r < |recvs| ==> recvs[r].src < n
  }

  ghost predicate EndOk(c: Setup, e: G.State, n: nat) {
    O.Inv(c.config, e) && TrafficOk(c, e.sends, e.recvs, n)
  }

  ghost predicate DevOk(c: Setup, d: Device, e: G.State) {
    Good(c.config, d, e.packets, e.sends, None)
  }

  predicate LongSend(d: Device, p: nat) {
    p in d.sends && CtxOf(d, p).proto.LongHeader?
  }

  /** The callback that a packet of rank x will run is due, and for a message of x. */
  predicate CallOk(x: nat, call: Call, ends: seq<G.State>) {
    call.dst < |ends| && call.msg in ends[call.dst].longs && call.msg < |ends[call.dst].sends|
    && ends[call.dst].sends[call.msg].src == x
  }

  /** And no other packet will run it. */
  ghost predicate CallsOk(x: nat, d: Device, ends: seq<G.State>) {
    && (forall p :: LongSend(d, p) ==> CallOk(x, CtxOf(d, p).call, ends))
    && (forall p, q :: LongSend(d, p) && LongSend(d, q) && p != q ==> CtxOf(d, p).call != CtxOf(d, q).call)
  }

  ghost predicate Inv(c: Setup, s: Net) {
    && |s.ends| == |s.devs| <= G.RANKS
    && (forall i :: 0 <= i < |s.ends| ==> EndOk(c, s.ends[i], |s.ends|))
    && (forall i :: 0 <= i < |s.ends| ==> DevOk(c, s.devs[i], s.ends[i]))
    && (forall i :: 0 <= i < |s.ends| ==> CallsOk(i, s.devs[i], s.ends))
  }

  lemma InvWellFormed(c: Setup, s: Net)
    requires Inv(c, s)
    ensures WellFormed(s)
  {
    forall i | 0 <= i < |s.devs| ensures PoolsOk(s.devs[i].pools) { assert DevOk(c, s.devs[i], s.ends[i]); }
  }
}
