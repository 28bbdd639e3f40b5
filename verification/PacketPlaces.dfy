/** Where the packets of a device are.  A handler gets hold of one packet and hands it on; these are the ways to get
    hold of a packet and the ways to hand one on, with what each does to the number of places a packet is in. */
module PacketPlaces {
  import opened Wrappers
  import opened PacketPool
  import G = Messaging
  import R = RingBuffer

  // ----- A device -----

  /** What the header of a packet says it carries. */
  datatype Header = DataHeader | RtsHeader | RtrHeader | LongHeader

  /** The callback of a long message: its receiver, and its number among the messages sent there. */
  datatype Call = Call(dst: nat, msg: nat)

  /** What a packet remembers; `call` is what an RTS or RTR in it would call back. */
  datatype Context = Context(proto: Header, poolid: int, call: Call)

  /** What becomes of a completed receive. */
  datatype Completion = Signal | Queue | Handler | Nothing

  /** The pool; the contexts of the packets; the packets posted for receives, those handed to the network for sending,
      the ones behind the requests in the completion queue and behind those popped but not freed yet.  The rest is
      history: packets put back through a pool number that is no pool's, and packets that were written into from the
      one before. */
  datatype Device = Device(pools: Pools, ctx: map<nat, Context>, posted: seq<nat>, sends: seq<nat>, queue: seq<nat>,
                           user: seq<nat>, lost: seq<nat>, overrun: seq<nat>)

  /** The cells of a completion queue. */
  const QUEUE_CELLS: nat := 2 * PACKETS

  const FRESH := Context(DataHeader, 0, Call(0, 0))

  function CtxOf(d: Device, p: nat): Context {
    if p in d.ctx then d.ctx[p] else FRESH
  }

  /** All packets start in the pool of the worker that opens the device, and remember pool 0. */
  function Opened(w: nat): Device {
    Device(Pools(map[w := 0], [UpTo(PACKETS)]), map[], [], [], [], [], [], [])
  }

  /** The packets in the order in which they are put into the pool. */
  function UpTo(n: nat): seq<nat> {
    seq(n, i => i)
  }

  // ----- What handlers do -----

  /** `lci_pk_free`. */
  function Free(d: Device, w: nat, p: nat): Device
    requires PoolsOk(d.pools)
  {
    d.(pools := Put(d.pools, w, p))
  }

  /** `lci_pk_free_data`. */
  function FreeData(d: Device, w: nat, p: nat): Device
    requires PoolsOk(d.pools)
  {
    match PutBack(d.pools, w, p, CtxOf(d, p).poolid)
    case Some(pools) => d.(pools := pools)
    case None => d.(lost := d.lost + [p])
  }

  /** `lci_ce_dispatch`. */
  function Dispatch(ce: Completion, d: Device, w: nat, p: nat): Device
    requires PoolsOk(d.pools)
  {
    if ce.Queue? then d.(queue := d.queue + [p]) else FreeData(d, w, p)
  }

  /** Hand a packet to the network, to send what the context says. */
  function Emit(d: Device, p: nat, c: Context): Device {
    d.(ctx := d.ctx[p := c], sends := d.sends + [p])
  }

  /** Post a packet for a receive; it remembers the poster's pool. */
  function Post(d: Device, p: nat, pid: nat): Device {
    d.(ctx := d.ctx[p := CtxOf(d, p).(poolid := ToInt8(pid))], posted := d.posted + [p])
  }

  function SetProto(d: Device, p: nat, h: Header): Device {
    d.(ctx := d.ctx[p := CtxOf(d, p).(proto := h)])
  }

  // ----- Copies that do not fit -----

  function HeaderCode(h: Header): int {
    match h
    case DataHeader => 0
    case RtrHeader => 1
    case RtsHeader => 2
    case LongHeader => 3
  }

  /** Handlers treat what is no other header as data. */
  function HeaderOfCode(code: int): Header {
    if code == 1 then RtrHeader else if code == 2 then RtsHeader else if code == 3 then LongHeader else DataHeader
  }

  /** A context after the copy of `data` into the packet before it ran on: header and pool number are the last bytes but
      one of a context, and packets lie `packetSize` apart. */
  function Overwritten(c: G.Config, x: Context, data: G.Bytes): Context {
    var n := c.packetSize;
    var low := if n >= 4 && |data| > n - 4 then data[n - 4] as int else HeaderCode(x.proto);
    var high := if n >= 4 && |data| > n - 3 then data[n - 3] as int else 0;
    Context(HeaderOfCode(low + 256 * high), if n >= 4 && |data| > n - 2 then ToInt8(data[n - 2] as int) else x.poolid, x.call)
  }

  /** Copy `data` into packet p.  What the packet has no room for goes into the context of the next one. */
  function CopyInto(c: G.Config, d: Device, p: nat, data: G.Bytes): Device {
    if |data| <= c.room then d
    else d.(overrun := d.overrun + [p + 1],
            ctx := if p + 1 < PACKETS then d.ctx[p + 1 := Overwritten(c, CtxOf(d, p + 1), data)] else d.ctx)
  }

  // ----- Places -----

  /** How many of the places outside the protocol a packet is in, repetitions counted. */
  ghost function Count(d: Device, x: nat): nat {
    TimesIn(d.pools.lists, x) + Times(d.posted, x) + Times(d.sends, x) + Times(d.queue, x) + Times(d.user, x)
    + Times(d.lost, x)
  }

  /** Does the packet serve a rendezvous whose RTR is still being sent? */
  predicate Sending(packets: map<nat, G.Packet>, x: nat) {
    x in packets && packets[x].Served? && packets[x].sending
  }

  /** Is the packet in the table, or serving a rendezvous whose RTR has been sent? */
  predicate Resting(packets: map<nat, G.Packet>, x: nat) {
    x in packets && !Sending(packets, x)
  }

  /** How many places a packet is in.  One that serves a rendezvous is with the network until its RTR is sent. */
  ghost function Total(d: Device, packets: map<nat, G.Packet>, x: nat): nat {
    Count(d, x) + if Resting(packets, x) then 1 else 0
  }

  /** Each packet is in one place; the one in hand, if any, in none. */
  ghost predicate Counts(d: Device, packets: map<nat, G.Packet>, hand: Option<nat>) {
    forall x: nat :: Total(d, packets, x) + (if hand == Some(x) then 1 else 0) == if x < PACKETS then 1 else 0
  }

  /** What is being sent as an RTR serves a rendezvous, and the other way round. */
  ghost predicate SendsOk(d: Device, packets: map<nat, G.Packet>) {
    && (forall i :: 0 <= i < |d.sends| ==> (CtxOf(d, d.sends[i]).proto.RtrHeader? <==> Sending(packets, d.sends[i])))
    && (forall x :: Sending(packets, x) ==> x in d.sends)
  }

  function HeaderOf(c: G.Config, x: G.Send): Header {
    if G.Eager(c, x) then DataHeader else RtsHeader
  }

  predicate Shelved(c: G.Config, h: Header, pk: G.Packet, sends: seq<G.Send>) {
    pk.Waiting? ==> pk.msg < |sends| && h == HeaderOf(c, sends[pk.msg])
  }

  /** The header of a packet in the table says how its message travels. */
  ghost predicate TableOk(c: G.Config, d: Device, packets: map<nat, G.Packet>, sends: seq<G.Send>) {
    forall x :: x in packets ==> Shelved(c, CtxOf(d, x).proto, packets[x], sends)
  }

  /** As long as there are at most 128 pools, packets remember pools that exist, and none is lost. */
  ghost predicate Marked(d: Device) {
    |d.pools.lists| <= 128 ==> d.lost == [] && forall x: nat :: -1 <= CtxOf(d, x).poolid < |d.pools.lists|
  }

  ghost predicate Good(c: G.Config, d: Device, packets: map<nat, G.Packet>, sends: seq<G.Send>, hand: Option<nat>) {
    && PoolsOk(d.pools) && Marked(d) && Counts(d, packets, hand) && SendsOk(d, packets) && TableOk(c, d, packets, sends)
    && d.overrun == []
  }

  /** A packet that is in one of the places outside the protocol is not in it, and not being sent if that is another. */
  lemma OnlyThere(c: G.Config, d: Device, packets: map<nat, G.Packet>, sends: seq<G.Send>, x: nat)
    requires Good(c, d, packets, sends, None)
    requires TimesIn(d.pools.lists, x) + Times(d.posted, x) + Times(d.queue, x) + Times(d.user, x) >= 1
    ensures x < PACKETS && x !in packets && x !in d.sends
  {
    assert Total(d, packets, x) <= 1;
    TimesNone(d.sends, x);
  }

  /** Neither is the one in hand. */
  lemma InHand(c: G.Config, d: Device, packets: map<nat, G.Packet>, sends: seq<G.Send>, p: nat)
    requires Good(c, d, packets, sends, Some(p))
    ensures p < PACKETS && p !in packets && p !in d.sends && Count(d, p) == 0
  {
    assert Total(d, packets, p) + 1 == if p < PACKETS then 1 else 0;
    TimesNone(d.sends, p);
  }

  // ----- Frames -----

  lemma SameMarks(d: Device, t: Device)
    requires Marked(d) && t.ctx == d.ctx && t.lost == d.lost && |t.pools.lists| >= |d.pools.lists|
    ensures Marked(t)
  {
    assert forall x: nat :: CtxOf(t, x) == CtxOf(d, x);
  }

  /** Marking one more packet with a pool that exists. */
  lemma OneMarked(d: Device, t: Device, p: nat, id: int)
    requires Marked(d) && t.lost == d.lost && |t.pools.lists| == |d.pools.lists| && CtxOf(t, p).poolid == id
    requires forall x: nat :: x != p ==> CtxOf(t, x) == CtxOf(d, x)
    requires |d.pools.lists| <= 128 ==> -1 <= id < |d.pools.lists|
    ensures Marked(t)
  {
    if |t.pools.lists| <= 128 {
      forall x: nat ensures -1 <= CtxOf(t, x).poolid < |t.pools.lists| {
        if x != p { assert CtxOf(t, x) == CtxOf(d, x); }
      }
    }
  }

  lemma SameSends(d: Device, t: Device, packets: map<nat, G.Packet>)
    requires SendsOk(d, packets) && t.sends == d.sends && forall x: nat :: x in d.sends ==> CtxOf(t, x) == CtxOf(d, x)
    ensures SendsOk(t, packets)
  {
    forall i | 0 <= i < |t.sends| ensures CtxOf(t, t.sends[i]).proto.RtrHeader? <==> Sending(packets, t.sends[i]) {
      assert CtxOf(d, d.sends[i]).proto.RtrHeader? <==> Sending(packets, d.sends[i]);
    }
  }

  lemma SameTable(c: G.Config, d: Device, t: Device, packets: map<nat, G.Packet>, sends: seq<G.Send>)
    requires TableOk(c, d, packets, sends) && forall x :: x in packets ==> CtxOf(t, x) == CtxOf(d, x)
    ensures TableOk(c, t, packets, sends)
  {
    forall x | x in packets ensures Shelved(c, CtxOf(t, x).proto, packets[x], sends) {
      assert Shelved(c, CtxOf(d, x).proto, packets[x], sends);
    }
  }

  lemma TakeCounts(d: Device, t: Device, packets: map<nat, G.Packet>, p: nat)
    requires Counts(d, packets, None) && forall x: nat :: Count(t, x) == Count(d, x) - One(p, x)
    ensures Counts(t, packets, Some(p))
  {
    forall x: nat
      ensures Total(t, packets, x) + (if Some(p) == Some(x) then 1 else 0) == if x < PACKETS then 1 else 0
    {
      assert Total(d, packets, x) == if x < PACKETS then 1 else 0;
      assert Count(t, x) == Count(d, x) - One(p, x);
    }
  }

  lemma GiveCounts(d: Device, t: Device, packets: map<nat, G.Packet>, p: nat)
    requires Counts(d, packets, Some(p)) && forall x: nat :: Count(t, x) == Count(d, x) + One(p, x)
    ensures Counts(t, packets, None)
  {
    forall x: nat ensures Total(t, packets, x) == if x < PACKETS then 1 else 0 {
      assert Total(d, packets, x) + (if Some(p) == Some(x) then 1 else 0) == if x < PACKETS then 1 else 0;
      assert Count(t, x) == Count(d, x) + One(p, x);
    }
  }

  /** A packet changes hands without a context, a packet being sent or the protocol being touched. */
  lemma SameContexts(c: G.Config, d: Device, t: Device, packets: map<nat, G.Packet>, sends: seq<G.Send>)
    requires Marked(d) && SendsOk(d, packets) && TableOk(c, d, packets, sends)
    requires t.ctx == d.ctx && t.sends == d.sends && t.lost == d.lost && |t.pools.lists| >= |d.pools.lists|
    ensures Marked(t) && SendsOk(t, packets) && TableOk(c, t, packets, sends)
  {
    SameMarks(d, t);
    SameSends(d, t, packets);
    SameTable(c, d, t, packets, sends);
  }

  // ----- Getting hold of a packet -----

  /** From the pool. */
  lemma TakePooled(c: G.Config, d: Device, packets: map<nat, G.Packet>, sends: seq<G.Send>, w: nat, steal: nat)
    requires Good(c, d, packets, sends, None) && w < MAX_POOLS
    ensures var (pools, r) := Get(d.pools, w, steal);
      Good(c, d.(pools := pools), packets, sends, r) && LocalId(d.pools, w) == LocalId(pools, w) < |pools.lists|
  {
    var (pools, r) := Get(d.pools, w, steal);
    var t := d.(pools := pools);
    GetKeeps(d.pools, w, steal);
    LocalKeeps(d.pools, w);
    SameContexts(c, d, t, packets, sends);
    if r.Some? {
      TakeCounts(d, t, packets, r.value);
    } else {
      forall x: nat ensures Total(t, packets, x) == Total(d, packets, x) {
        assert TimesIn(pools.lists, x) == TimesIn(d.pools.lists, x);
      }
    }
  }

  /** From the posted receives: one arrived in it. */
  lemma TakePosted(c: G.Config, d: Device, packets: map<nat, G.Packet>, sends: seq<G.Send>, i: nat)
    requires Good(c, d, packets, sends, None) && i < |d.posted|
    ensures Good(c, d.(posted := Remove(d.posted, i)), packets, sends, Some(d.posted[i]))
  {
    var t := d.(posted := Remove(d.posted, i));
    forall x: nat ensures Count(t, x) == Count(d, x) - One(d.posted[i], x) { TimesRemove(d.posted, i, x); }
    SameContexts(c, d, t, packets, sends);
    TakeCounts(d, t, packets, d.posted[i]);
  }

  /** From the sends under way: one completed, and was no RTR. */
  lemma TakeSent(c: G.Config, d: Device, packets: map<nat, G.Packet>, sends: seq<G.Send>, i: nat)
    requires Good(c, d, packets, sends, None) && i < |d.sends| && !CtxOf(d, d.sends[i]).proto.RtrHeader?
    ensures Good(c, d.(sends := Remove(d.sends, i)), packets, sends, Some(d.sends[i]))
  {
    var t := d.(sends := Remove(d.sends, i));
    forall x: nat ensures Count(t, x) == Count(d, x) - One(d.sends[i], x) { TimesRemove(d.sends, i, x); }
    SameMarks(d, t);
    SameTable(c, d, t, packets, sends);
    SentFrame(d, packets, i);
    TakeCounts(d, t, packets, d.sends[i]);
  }

  lemma SentFrame(d: Device, packets: map<nat, G.Packet>, i: nat)
    requires SendsOk(d, packets) && i < |d.sends| && !CtxOf(d, d.sends[i]).proto.RtrHeader?
    ensures SendsOk(d.(sends := Remove(d.sends, i)), packets)
  {
    var t := d.(sends := Remove(d.sends, i));
    forall j | 0 <= j < |t.sends| ensures CtxOf(t, t.sends[j]).proto.RtrHeader? <==> Sending(packets, t.sends[j]) {
      var k := if j < i then j else j + 1;
      assert t.sends[j] == d.sends[k] && CtxOf(t, t.sends[j]) == CtxOf(d, d.sends[k]);
    }
    forall x | Sending(packets, x) ensures x in t.sends {
      var k :| 0 <= k < |d.sends| && d.sends[k] == x;
      assert k != i && t.sends[if k < i then k else k - 1] == x;
    }
  }

  /** From the head of the completion queue. */
  lemma TakeQueued(c: G.Config, d: Device, packets: map<nat, G.Packet>, sends: seq<G.Send>)
    requires Good(c, d, packets, sends, None) && d.queue != []
    ensures Good(c, d.(queue := d.queue[1..]), packets, sends, Some(d.queue[0]))
  {
    var t := d.(queue := d.queue[1..]);
    SameContexts(c, d, t, packets, sends);
    TakeCounts(d, t, packets, d.queue[0]);
  }

  /** From the user. */
  lemma TakeUsed(c: G.Config, d: Device, packets: map<nat, G.Packet>, sends: seq<G.Send>, i: nat)
    requires Good(c, d, packets, sends, None) && i < |d.user|
    ensures Good(c, d.(user := Remove(d.user, i)), packets, sends, Some(d.user[i]))
  {
    var t := d.(user := Remove(d.user, i));
    forall x: nat ensures Count(t, x) == Count(d, x) - One(d.user[i], x) { TimesRemove(d.user, i, x); }
    SameContexts(c, d, t, packets, sends);
    TakeCounts(d, t, packets, d.user[i]);
  }

  // ----- Handing it on -----

  lemma GiveFree(c: G.Config, d: Device, packets: map<nat, G.Packet>, sends: seq<G.Send>, w: nat, p: nat)
    requires Good(c, d, packets, sends, Some(p)) && w < MAX_POOLS
    ensures Good(c, Free(d, w, p), packets, sends, None)
  {
    var t := Free(d, w, p);
    PutKeeps(d.pools, w, p);
    SameContexts(c, d, t, packets, sends);
    GiveCounts(d, t, packets, p);
  }

  lemma GiveBack(c: G.Config, d: Device, packets: map<nat, G.Packet>, sends: seq<G.Send>, w: nat, p: nat)
    requires Good(c, d, packets, sends, Some(p)) && w < MAX_POOLS
    ensures Good(c, FreeData(d, w, p), packets, sends, None)
  {
    var id := CtxOf(d, p).poolid;
    var t := FreeData(d, w, p);
    if id == -1 {
      GiveFree(c, d, packets, sends, w, p);
    } else if Exists(d.pools, id) {
      PutToKeeps(d.pools, id, p);
      SameContexts(c, d, t, packets, sends);
      GiveCounts(d, t, packets, p);
    } else {
      forall x: nat ensures Count(t, x) == Count(d, x) + One(p, x) { TimesSnoc(d.lost, p, x); }
      SameSends(d, t, packets);
      SameTable(c, d, t, packets, sends);
      GiveCounts(d, t, packets, p);
    }
  }

  /** A packet that remembers the pool of worker v is freed into exactly one pool if and only if that pool is one of the
      first 128 or has number 255 or above; otherwise it is lost. */
  lemma FreeDataExact(c: G.Config, d: Device, packets: map<nat, G.Packet>, sends: seq<G.Send>, v: nat, w: nat, p: nat)
    requires Good(c, d, packets, sends, Some(p)) && w < MAX_POOLS
    requires v in d.pools.local && CtxOf(d, p).poolid == ToInt8(d.pools.local[v])
    ensures var (t, pid) := (FreeData(d, w, p), d.pools.local[v]);
      && TimesIn(t.pools.lists, p) == (if pid < 128 || pid >= 255 then 1 else 0)
      && (p in t.lost <==> 128 <= pid < 255)
  {
    InHand(c, d, packets, sends, p);
    PutBackKeeps(d.pools, v, w, p);
    TimesNone(d.lost, p);
    TimesNone(FreeData(d, w, p).lost, p);
  }

  lemma GiveCompletion(ce: Completion, c: G.Config, d: Device, packets: map<nat, G.Packet>, sends: seq<G.Send>, w: nat, p: nat)
    requires Good(c, d, packets, sends, Some(p)) && w < MAX_POOLS
    ensures Good(c, Dispatch(ce, d, w, p), packets, sends, None)
  {
    if ce.Queue? {
      var t := Dispatch(ce, d, w, p);
      forall x: nat ensures Count(t, x) == Count(d, x) + One(p, x) { TimesSnoc(d.queue, p, x); }
      SameContexts(c, d, t, packets, sends);
      GiveCounts(d, t, packets, p);
    } else {
      GiveBack(c, d, packets, sends, w, p);
    }
  }

  lemma GiveUser(c: G.Config, d: Device, packets: map<nat, G.Packet>, sends: seq<G.Send>, p: nat)
    requires Good(c, d, packets, sends, Some(p))
    ensures Good(c, d.(user := d.user + [p]), packets, sends, None)
  {
    var t := d.(user := d.user + [p]);
    forall x: nat ensures Count(t, x) == Count(d, x) + One(p, x) { TimesSnoc(d.user, p, x); }
    SameContexts(c, d, t, packets, sends);
    GiveCounts(d, t, packets, p);
  }

  lemma GivePosted(c: G.Config, d: Device, packets: map<nat, G.Packet>, sends: seq<G.Send>, p: nat, pid: nat)
    requires Good(c, d, packets, sends, Some(p)) && pid < |d.pools.lists|
    ensures Good(c, Post(d, p, pid), packets, sends, None)
  {
    var t := Post(d, p, pid);
    InHand(c, d, packets, sends, p);
    forall x: nat ensures Count(t, x) == Count(d, x) + One(p, x) { TimesSnoc(d.posted, p, x); }
    OneMarked(d, t, p, ToInt8(pid));
    SameSends(d, t, packets);
    SameTable(c, d, t, packets, sends);
    GiveCounts(d, t, packets, p);
  }

  /** To the network, as anything but an RTR. */
  lemma GiveSend(c: G.Config, d: Device, packets: map<nat, G.Packet>, sends: seq<G.Send>, p: nat, x: Context)
    requires Good(c, d, packets, sends, Some(p)) && !x.proto.RtrHeader?
    requires x.poolid == -1 || exists pid: nat :: pid < |d.pools.lists| && x.poolid == ToInt8(pid)
    ensures Good(c, Emit(d, p, x), packets, sends, None)
  {
    var t := Emit(d, p, x);
    InHand(c, d, packets, sends, p);
    forall y: nat ensures Count(t, y) == Count(d, y) + One(p, y) { TimesSnoc(d.sends, p, y); }
    OneMarked(d, t, p, x.poolid);
    EmitFrame(d, packets, p, x);
    SameTable(c, d, t, packets, sends);
    GiveCounts(d, t, packets, p);
  }

  lemma EmitFrame(d: Device, packets: map<nat, G.Packet>, p: nat, x: Context)
    requires SendsOk(d, packets) && p !in packets && p !in d.sends && !x.proto.RtrHeader?
    ensures SendsOk(Emit(d, p, x), packets)
  {
    var t := Emit(d, p, x);
    forall i | 0 <= i < |t.sends| ensures CtxOf(t, t.sends[i]).proto.RtrHeader? <==> Sending(packets, t.sends[i]) {
      if i < |d.sends| { assert CtxOf(d, d.sends[i]).proto.RtrHeader? <==> Sending(packets, d.sends[i]); }
    }
  }

  // ----- Into the protocol and out of it -----

  /** Into the table. */
  lemma Shelve(c: G.Config, d: Device, packets: map<nat, G.Packet>, sends: seq<G.Send>, p: nat, m: nat, b: G.Bytes)
    requires Good(c, d, packets, sends, Some(p)) && m < |sends|
    ensures Good(c, SetProto(d, p, HeaderOf(c, sends[m])), packets[p := G.Waiting(m, b)], sends, None)
  {
    var t, packets' := SetProto(d, p, HeaderOf(c, sends[m])), packets[p := G.Waiting(m, b)];
    InHand(c, d, packets, sends, p);
    SetProtoHand(c, d, packets, sends, p, HeaderOf(c, sends[m]));
    forall x: nat ensures Total(t, packets', x) == if x < PACKETS then 1 else 0 {
      assert Total(t, packets, x) + (if Some(p) == Some(x) then 1 else 0) == if x < PACKETS then 1 else 0;
      assert x != p ==> Resting(packets', x) == Resting(packets, x);
    }
    forall i | 0 <= i < |t.sends| ensures CtxOf(t, t.sends[i]).proto.RtrHeader? <==> Sending(packets', t.sends[i]) {
      assert CtxOf(t, t.sends[i]).proto.RtrHeader? <==> Sending(packets, t.sends[i]);
    }
    forall x | x in packets' ensures Shelved(c, CtxOf(t, x).proto, packets'[x], sends) {
      if x != p { assert Shelved(c, CtxOf(t, x).proto, packets[x], sends); }
    }
  }

  lemma SetProtoHand(c: G.Config, d: Device, packets: map<nat, G.Packet>, sends: seq<G.Send>, p: nat, h: Header)
    requires Good(c, d, packets, sends, Some(p))
    ensures Good(c, SetProto(d, p, h), packets, sends, Some(p))
  {
    var t := SetProto(d, p, h);
    InHand(c, d, packets, sends, p);
    assert forall x: nat :: CtxOf(t, x).poolid == CtxOf(d, x).poolid;
    SameSends(d, t, packets);
    SameTable(c, d, t, packets, sends);
    forall x: nat
      ensures Total(t, packets, x) + (if Some(p) == Some(x) then 1 else 0) == if x < PACKETS then 1 else 0
    {
      assert Total(t, packets, x) == Total(d, packets, x);
    }
  }

  /** Into a rendezvous: its RTR goes to the network. */
  lemma Serve(c: G.Config, d: Device, packets: map<nat, G.Packet>, sends: seq<G.Send>, p: nat, pk: G.Packet, call: Call)
    requires Good(c, d, packets, sends, Some(p)) && pk.Served? && pk.sending
    ensures Good(c, Emit(d, p, Context(RtrHeader, -1, call)), packets[p := pk], sends, None)
  {
    var t, packets' := Emit(d, p, Context(RtrHeader, -1, call)), packets[p := pk];
    InHand(c, d, packets, sends, p);
    OneMarked(d, t, p, -1);
    forall x: nat ensures Total(t, packets', x) == if x < PACKETS then 1 else 0 {
      assert Total(d, packets, x) + (if Some(p) == Some(x) then 1 else 0) == if x < PACKETS then 1 else 0;
      TimesSnoc(d.sends, p, x);
      assert x != p ==> Resting(packets', x) == Resting(packets, x);
    }
    forall i | 0 <= i < |t.sends| ensures CtxOf(t, t.sends[i]).proto.RtrHeader? <==> Sending(packets', t.sends[i]) {
      if i < |d.sends| { assert CtxOf(d, d.sends[i]).proto.RtrHeader? <==> Sending(packets, d.sends[i]); }
    }
    ServeFrame(d, packets, p, pk, call);
    forall x | x in packets' ensures Shelved(c, CtxOf(t, x).proto, packets'[x], sends) {
      if x != p { assert Shelved(c, CtxOf(d, x).proto, packets[x], sends); }
    }
  }

  lemma ServeFrame(d: Device, packets: map<nat, G.Packet>, p: nat, pk: G.Packet, call: Call)
    requires SendsOk(d, packets) && p !in packets
    ensures forall x :: Sending(packets[p := pk], x) ==> x in Emit(d, p, Context(RtrHeader, -1, call)).sends
  {
    var t := Emit(d, p, Context(RtrHeader, -1, call));
    forall x | Sending(packets[p := pk], x) ensures x in t.sends {
      if x != p { assert Sending(packets, x) && x in d.sends; } else { assert t.sends[|d.sends|] == p; }
    }
  }

  /** A packet at rest in the protocol leaves it. */
  lemma TakeResting(c: G.Config, d: Device, packets: map<nat, G.Packet>, sends: seq<G.Send>, p: nat)
    requires Good(c, d, packets, sends, None) && Resting(packets, p)
    ensures Good(c, d, packets - {p}, sends, Some(p))
  {
    var packets' := packets - {p};
    assert forall x: nat :: Sending(packets', x) == Sending(packets, x);
    forall x: nat
      ensures Total(d, packets', x) + (if Some(p) == Some(x) then 1 else 0) == if x < PACKETS then 1 else 0
    {
      assert Total(d, packets, x) == if x < PACKETS then 1 else 0;
    }
    assert TableOk(c, d, packets', sends) by {
      forall x | x in packets' ensures Shelved(c, CtxOf(d, x).proto, packets'[x], sends) {
        assert Shelved(c, CtxOf(d, x).proto, packets[x], sends);
      }
    }
  }

  /** The send of an RTR completed: its packet is now only served ... */
  lemma RtrDone(c: G.Config, d: Device, packets: map<nat, G.Packet>, sends: seq<G.Send>, i: nat, pk: G.Packet)
    requires Good(c, d, packets, sends, None) && i < |d.sends| && Sending(packets, d.sends[i])
    requires pk.Served? && !pk.sending
    ensures Good(c, d.(sends := Remove(d.sends, i)), packets[d.sends[i] := pk], sends, None)
  {
    var p := d.sends[i];
    var t, packets' := d.(sends := Remove(d.sends, i)), packets[p := pk];
    SameMarks(d, t);
    RtrDoneSends(d, packets, i, pk);
    forall x: nat ensures Total(t, packets', x) == if x < PACKETS then 1 else 0 {
      assert Total(d, packets, x) == if x < PACKETS then 1 else 0;
      TimesRemove(d.sends, i, x);
      assert x != p ==> Resting(packets', x) == Resting(packets, x);
    }
    forall x | x in packets' ensures Shelved(c, CtxOf(t, x).proto, packets'[x], sends) {
      if x != p { assert Shelved(c, CtxOf(d, x).proto, packets[x], sends); }
    }
  }

  lemma RtrDoneSends(d: Device, packets: map<nat, G.Packet>, i: nat, pk: G.Packet)
    requires Counts(d, packets, None) && SendsOk(d, packets) && i < |d.sends| && !pk.Waiting? && !pk.sending
    ensures SendsOk(d.(sends := Remove(d.sends, i)), packets[d.sends[i] := pk])
  {
    var p := d.sends[i];
    var t, packets' := d.(sends := Remove(d.sends, i)), packets[p := pk];
    assert Total(d, packets, p) <= 1;
    TimesRemove(d.sends, i, p);
    TimesNone(t.sends, p);
    forall j | 0 <= j < |t.sends| ensures CtxOf(t, t.sends[j]).proto.RtrHeader? <==> Sending(packets', t.sends[j]) {
      var k := if j < i then j else j + 1;
      assert t.sends[j] == d.sends[k] && t.sends[j] in t.sends;
      assert CtxOf(d, d.sends[k]).proto.RtrHeader? <==> Sending(packets, d.sends[k]);
    }
    forall x | Sending(packets', x) ensures x in t.sends {
      assert x != p && Sending(packets, x);
      var k :| 0 <= k < |d.sends| && d.sends[k] == x;
      assert t.sends[if k < i then k else k - 1] == x;
    }
  }

  /** Whatever changes in the protocol without moving a packet. */
  lemma SamePlaces(c: G.Config, d: Device, packets: map<nat, G.Packet>, packets': map<nat, G.Packet>,
                   sends: seq<G.Send>, sends': seq<G.Send>, hand: Option<nat>)
    requires Good(c, d, packets, sends, hand) && sends <= sends' && packets'.Keys == packets.Keys
    requires forall x :: x in packets ==>
      (packets'[x].Waiting? ==> packets'[x] == packets[x]) && Sending(packets', x) == Sending(packets, x)
    ensures Good(c, d, packets', sends', hand)
  {
    assert forall x: nat :: x in packets'.Keys <==> x in packets.Keys;
    assert forall x: nat :: Sending(packets', x) == Sending(packets, x);
    forall x: nat ensures Total(d, packets', x) == Total(d, packets, x) {
      assert Resting(packets', x) == Resting(packets, x);
    }
    forall x | x in packets' ensures Shelved(c, CtxOf(d, x).proto, packets'[x], sends') {
      assert Shelved(c, CtxOf(d, x).proto, packets[x], sends);
    }
  }

  // ----- Nothing overflows -----

  lemma OneListFits(c: G.Config, d: Device, packets: map<nat, G.Packet>, sends: seq<G.Send>, hand: Option<nat>, list: seq<nat>)
    requires Good(c, d, packets, sends, hand) && forall x: nat :: Times(list, x) <= Count(d, x)
    ensures |list| <= PACKETS
  {
    forall x: nat ensures Times(list, x) <= if x < PACKETS then 1 else 0 {
      assert Total(d, packets, x) + (if hand == Some(x) then 1 else 0) == if x < PACKETS then 1 else 0;
      assert Times(list, x) <= Count(d, x);
    }
    ListFits(list, PACKETS);
  }

  /** Neither a pool nor the completion queue of a device ever holds more than its packets. */
  lemma ListsFit(c: G.Config, d: Device, packets: map<nat, G.Packet>, sends: seq<G.Send>, hand: Option<nat>)
    requires Good(c, d, packets, sends, hand)
    ensures |d.queue| <= PACKETS && forall i :: 0 <= i < |d.pools.lists| ==> |d.pools.lists[i]| <= PACKETS
  {
    OneListFits(c, d, packets, sends, hand, d.queue);
    forall i | 0 <= i < |d.pools.lists| ensures |d.pools.lists[i]| <= PACKETS {
      forall x: nat { TimesHolds(d.pools.lists, i, x); }
      OneListFits(c, d, packets, sends, hand, d.pools.lists[i]);
    }
  }

  /** `lci_pk_free` on the pool in memory: the push does not overflow. */
  method FreeInto(pool: DevicePool, w: nat, p: nat, ghost c: G.Config, ghost d: Device, ghost packets: map<nat, G.Packet>,
                  ghost sends: seq<G.Send>) returns (overflow: bool)
    requires Good(c, d, packets, sends, Some(p)) && w < MAX_POOLS
    requires pool.Valid() && pool.AsPools() == d.pools
    modifies pool, pool.Parts()
    ensures !overflow && pool.Valid() && pool.AsPools() == Free(d, w, p).pools
  {
    ListsFit(c, d, packets, sends, Some(p));
    overflow := pool.PutOwn(w, p);
  }

  /** `lci_pk_free_data` while there are at most 128 pools: it finds its pool, and the push does not overflow. */
  method FreeDataInto(pool: DevicePool, w: nat, p: nat, id: int, ghost c: G.Config, ghost d: Device,
                      ghost packets: map<nat, G.Packet>, ghost sends: seq<G.Send>) returns (overflow: bool)
    requires Good(c, d, packets, sends, Some(p)) && w < MAX_POOLS && id == CtxOf(d, p).poolid
    requires pool.Valid() && pool.AsPools() == d.pools && |d.pools.lists| <= 128
    modifies pool, pool.Parts()
    ensures !overflow && pool.Valid() && pool.AsPools() == FreeData(d, w, p).pools && FreeData(d, w, p).lost == []
  {
    ListsFit(c, d, packets, sends, Some(p));
    if id != -1 { overflow := pool.PutInto(id, p); } else { overflow := pool.PutOwn(w, p); }
  }

  /** `cq_push`: the push does not overflow. */
  method QueueInto(queue: R.Ring<nat>, p: nat, ghost c: G.Config, ghost d: Device, ghost packets: map<nat, G.Packet>,
                   ghost sends: seq<G.Send>) returns (overflow: bool)
    requires Good(c, d, packets, sends, Some(p))
    requires queue.Valid() && queue.container.Length == QUEUE_CELLS && queue.Contents() == d.queue
    modifies queue`top, queue.container
    ensures !overflow && queue.Valid() && queue.Contents() == d.queue + [p]
  {
    ListsFit(c, d, packets, sends, Some(p));
    overflow := queue.PushTop(p);
  }

  // ----- The start -----

  lemma {:induction false} TimesUpTo(n: nat, x: nat)
    ensures Times(UpTo(n), x) == if x < n then 1 else 0
  {
    if n > 0 {
      TimesUpTo(n - 1, x);
      assert UpTo(n) == UpTo(n - 1) + [n - 1];
      TimesSnoc(UpTo(n - 1), n - 1, x);
    }
  }

  lemma OpenedGood(c: G.Config, w: nat)
    requires w < MAX_POOLS
    ensures Good(c, Opened(w), map[], [], None)
  {
    var d := Opened(w);
    assert d.pools.local.Keys == {w};
    forall x: nat ensures Total(d, map[], x) == if x < PACKETS then 1 else 0 {
      TimesUpTo(PACKETS, x);
      assert TimesIn(d.pools.lists, x) == Times(UpTo(PACKETS), x) + TimesIn([], x);
    }
  }
}
