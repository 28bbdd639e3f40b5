/** Two-sided messages to one receiving endpoint: sends from any number of ranks, receives, the matching table, and the
    rendezvous (RTS, RTR, RDMA write) of long messages. */
module Messaging {
  import opened Wrappers
  import M = MatchTable

  newtype Byte = x: int | 0 <= x < 256

  type Bytes = seq<Byte>

  // ----- Entities -----

  /** An `lc_send`: who sends, under which tag, which bytes. */
  datatype Send = Send(src: nat, tag: nat, data: Bytes)

  /** An `lc_recv`: from whom, and under which tag. */
  datatype Recv = Recv(src: nat, tag: nat)

  /** Where a message is on its way. */
  datatype Stage = Wire | InTable(packet: nat) | Serving(packet: nat) | Done

  /** `issued` once the RDMA write was started; `callbacks` counts the runs of the sender's callback. */
  datatype Status = Status(stage: Stage, issued: bool, callbacks: nat)

  /** What a receive has got: its buffer, how often its completion was dispatched, the message it was matched with. */
  datatype Req = Req(buffer: Option<Bytes>, completions: nat, match_: Option<nat>)

  /** What the table holds: a receive, or a packet with the message in it. */
  datatype Item = Nothing | ReqItem(req: nat) | PktItem(packet: nat, msg: nat)

  /** A packet in use at the receiver: waiting in the table with what arrived in it, or serving a rendezvous, counting
      its references and holding a memory registration; `sending` until the send of its RTR completed. */
  datatype Packet = Waiting(msg: nat, bytes: Bytes) | Served(msg: nat, req: nat, ref: int, mem: nat, sending: bool)

  /** The RTR echoes the RTS, callback included, and adds the target. */
  datatype Rtr = Rtr(cb: nat, target: nat)

  datatype Rdma = Rdma(target: nat, payload: Bytes)

  /** A memory registration: the packet that holds it, the receive whose buffer it is of, and how often it was undone. */
  datatype Reg = Reg(packet: nat, req: nat, deregs: nat)

  /** A packet under way: an eager message travels in it, a long one only announces itself. */
  datatype WirePacket = WirePacket(msg: nat, tag: nat, payload: Bytes)

  /** Sizes up to which a message goes inline or in one packet; how many bytes a packet has room for behind its context;
      and the hash of the table. */
  datatype Config = Config(maxInline: nat, packetSize: nat, room: nat, hash: nat -> nat)

  datatype State = State(
    sends: seq<Send>, status: seq<Status>, wires: map<nat, seq<WirePacket>>,
    recvs: seq<Recv>, reqs: seq<Req>, posts: seq<M.Post<Item>>,
    packets: map<nat, Packet>, rtrs: map<nat, Rtr>, rdmas: map<nat, Rdma>, longs: set<nat>,
    regs: seq<Reg>)

  datatype Protocol = Short | Medium | Long

  function ProtocolOf(c: Config, size: nat): Protocol {
    if size <= c.maxInline then Short else if size <= c.packetSize then Medium else Long
  }

  predicate Eager(c: Config, x: Send) {
    !ProtocolOf(c, |x.data|).Long?
  }

  function Payload(c: Config, x: Send): Bytes {
    if Eager(c, x) then x.data else []
  }

  /** What lands in a packet posted for a receive: as much as it has room for. */
  function InRoom(c: Config, b: Bytes): Bytes {
    if |b| <= c.room then b else b[..c.room]
  }

  /** What a receive gets of a message. */
  function Delivered(c: Config, x: Send): Bytes {
    if Eager(c, x) then InRoom(c, x.data) else x.data
  }

  /** A message that fits the packet it goes in, or goes in none. */
  predicate Fits(c: Config, x: Send) {
    |x.data| <= c.room || !Eager(c, x)
  }

  /** A message is delivered as it was sent if and only if it fits. */
  lemma DeliveredIffFits(c: Config, x: Send)
    ensures Delivered(c, x) == x.data <==> Fits(c, x)
  {
    if Eager(c, x) && |x.data| > c.room { assert |x.data[..c.room]| != |x.data|; }
  }

  // ----- Keys -----

  const RANKS: nat := 0x8000_0000
  const TAGS: nat := 0x1_0000

  predicate Address(src: nat, tag: nat) {
    src < RANKS && tag < TAGS
  }

  function Key(src: nat, tag: nat): nat {
    src * 0x1_0000_0000 + tag
  }

  lemma KeysDiffer(s: nat, t: nat, s': nat, t': nat)
    requires Address(s, t) && Address(s', t')
    ensures M.Usable(Key(s, t)) && (Key(s, t) == Key(s', t') <==> s == s' && t == t')
  {
  }

  // ----- Steps -----

  datatype Event =
    | DoSend(src: nat, tag: nat, data: Bytes)
    | DoRecv(src: nat, tag: nat)
    | Arrive(src: nat, packet: nat)
    | RtrSent(packet: nat)
    | RtrArrive(packet: nat)
    | RdmaArrive(packet: nat)
    | LongSent(msg: nat)

  function WireOf(s: State, src: nat): seq<WirePacket> {
    if src in s.wires then s.wires[src] else []
  }

  function Table(c: Config, s: State): M.Buckets<Item> {
    M.After(s.posts, c.hash, Nothing)
  }

  /** What looking a key up from one side would take out of the table. */
  function Lookup(c: Config, s: State, p: M.Post<Item>): M.Outcome<Item> {
    M.TableInsert(Table(c, s), c.hash, p.key, p.value, p.side, Nothing).1
  }

  function SetStatus(s: State, m: nat, st: Status): State
    requires m < |s.status|
  {
    s.(status := s.status[m := st])
  }

  ghost predicate Enabled(c: Config, s: State, e: Event) {
    match e
    case DoSend(src, tag, _) => Address(src, tag)
    case DoRecv(src, tag) => Address(src, tag)
    case Arrive(src, p) => WireOf(s, src) != [] && p !in s.packets
    case RtrSent(p) => p in s.packets && s.packets[p].Served? && s.packets[p].sending
    case RtrArrive(p) => p in s.rtrs
    case RdmaArrive(p) => p in s.rdmas
    case LongSent(m) => m in s.longs
  }

  /** `lc_send`: eager messages call back at once, a long one sends only its RTS. */
  function StepSend(c: Config, s: State, x: Send): State {
    s.(sends := s.sends + [x],
       status := s.status + [Status(Wire, false, if Eager(c, x) then 1 else 0)],
       wires := s.wires[x.src := WireOf(s, x.src) + [WirePacket(|s.sends|, x.tag, Payload(c, x))]])
  }

  /** A receive and a packet, with the bytes b in it, that met: eager data is copied and completes the receive; an RTS
      registers the receiver's memory and answers with an RTR that two events must follow. */
  function Meet(c: Config, s: State, r: nat, p: nat, m: nat, b: Bytes): State
    requires m < |s.sends| == |s.status| && r < |s.reqs|
  {
    if Eager(c, s.sends[m]) then
      s.(reqs := s.reqs[r := Req(Some(b), s.reqs[r].completions + 1, Some(m))],
         status := s.status[m := s.status[m].(stage := Done)],
         packets := s.packets - {p})
    else
      s.(reqs := s.reqs[r := s.reqs[r].(match_ := Some(m))],
         status := s.status[m := s.status[m].(stage := Serving(p))],
         packets := s.packets[p := Served(m, r, 2, |s.regs|, true)],
         rtrs := s.rtrs[p := Rtr(m, r)],
         regs := s.regs + [Reg(p, r, 0)])
  }

  function BytesIn(packets: map<nat, Packet>, p: nat): Bytes {
    if p in packets && packets[p].Waiting? then packets[p].bytes else []
  }

  function RecvPost(s: State, src: nat, tag: nat): M.Post<Item> {
    M.Post(Key(src, tag), M.Client, ReqItem(|s.reqs|))
  }

  function StepRecv(c: Config, s: State, src: nat, tag: nat): State {
    var post := RecvPost(s, src, tag);
    var out := Lookup(c, s, post);
    var t := s.(recvs := s.recvs + [Recv(src, tag)], reqs := s.reqs + [Req(None, 0, None)], posts := s.posts + [post]);
    if !out.inserted && out.value.PktItem? && out.value.msg < |t.sends| == |t.status| then
      Meet(c, t, |s.reqs|, out.value.packet, out.value.msg, BytesIn(s.packets, out.value.packet))
    else t
  }

  function ArrivePost(s: State, src: nat, p: nat): M.Post<Item>
    requires WireOf(s, src) != []
  {
    var w := WireOf(s, src)[0];
    M.Post(Key(src, w.tag), M.Server, PktItem(p, w.msg))
  }

  /** A packet arrives in the packet buffer p. */
  function StepArrive(c: Config, s: State, src: nat, p: nat): State
    requires WireOf(s, src) != []
  {
    var m, b := WireOf(s, src)[0].msg, InRoom(c, WireOf(s, src)[0].payload);
    var post := ArrivePost(s, src, p);
    var out := Lookup(c, s, post);
    var t := s.(wires := s.wires[src := WireOf(s, src)[1..]], posts := s.posts + [post]);
    if !(m < |t.sends| == |t.status|) then t
    else if out.inserted then
      SetStatus(t, m, t.status[m].(stage := InTable(p))).(packets := t.packets[p := Waiting(m, b)])
    else if out.value.ReqItem? && out.value.req < |t.reqs| then Meet(c, t, out.value.req, p, m, b)
    else t
  }

  /** One reference to the packet goes; the last one dispatches the completion and frees the packet. */
  function Drop(s: State, p: nat): State
    requires p in s.packets && s.packets[p].Served? && s.packets[p].req < |s.reqs| && s.packets[p].msg < |s.status|
  {
    var pk := s.packets[p];
    if pk.ref == 1 then
      s.(packets := s.packets - {p},
         reqs := s.reqs[pk.req := s.reqs[pk.req].(completions := s.reqs[pk.req].completions + 1)],
         status := s.status[pk.msg := s.status[pk.msg].(stage := Done)])
    else s.(packets := s.packets[p := pk.(ref := pk.ref - 1)])
  }

  predicate Refers(s: State, p: nat) {
    p in s.packets && s.packets[p].Served? && s.packets[p].req < |s.reqs| && s.packets[p].msg < |s.status|
  }

  function StepRtrSent(s: State, p: nat): State
    requires Refers(s, p)
  {
    Drop(s.(packets := s.packets[p := s.packets[p].(sending := false)]), p)
  }

  /** The sender gets the RTR and starts the RDMA write from the buffer the RTR names. */
  function StepRtrArrive(s: State, p: nat): State
    requires p in s.rtrs && s.rtrs[p].cb < |s.sends| == |s.status|
  {
    var m := s.rtrs[p].cb;
    s.(rtrs := s.rtrs - {p}, rdmas := s.rdmas[p := Rdma(s.rtrs[p].target, s.sends[m].data)],
       longs := s.longs + {m}, status := s.status[m := s.status[m].(issued := true)])
  }

  function Undone(regs: seq<Reg>, x: nat): seq<Reg> {
    if x < |regs| then regs[x := regs[x].(deregs := regs[x].deregs + 1)] else regs
  }

  /** The data is in the receiver's buffer; its memory is deregistered. */
  function StepRdmaArrive(s: State, p: nat): State
    requires p in s.rdmas && s.rdmas[p].target < |s.reqs| && Refers(s, p)
  {
    var d := s.rdmas[p];
    Drop(s.(rdmas := s.rdmas - {p}, reqs := s.reqs[d.target := s.reqs[d.target].(buffer := Some(d.payload))],
            regs := Undone(s.regs, s.packets[p].mem)), p)
  }

  function StepLongSent(s: State, m: nat): State
    requires m < |s.status|
  {
    s.(longs := s.longs - {m}, status := s.status[m := s.status[m].(callbacks := s.status[m].callbacks + 1)])
  }

  function Step(c: Config, s: State, e: Event): State {
    match e
    case DoSend(src, tag, data) => StepSend(c, s, Send(src, tag, data))
    case DoRecv(src, tag) => StepRecv(c, s, src, tag)
    case Arrive(src, p) => if WireOf(s, src) != [] then StepArrive(c, s, src, p) else s
    case RtrSent(p) => if Refers(s, p) then StepRtrSent(s, p) else s
    case RtrArrive(p) => if p in s.rtrs && s.rtrs[p].cb < |s.sends| == |s.status| then StepRtrArrive(s, p) else s
    case RdmaArrive(p) =>
      if p in s.rdmas && s.rdmas[p].target < |s.reqs| && Refers(s, p) then StepRdmaArrive(s, p) else s
    case LongSent(m) => if m < |s.status| then StepLongSent(s, m) else s
  }

  function Initial(): State {
    State([], [], map[], [], [], [], map[], map[], map[], {}, [])
  }

  /** The state after a sequence of events; those not enabled when their turn comes do not happen. */
  ghost function Run(c: Config, s: State, events: seq<Event>): State
    decreases |events|
  {
    if events == [] then s else Run(c, if Enabled(c, s, events[0]) then Step(c, s, events[0]) else s, events[1..])
  }

  // ----- The invariant of messages, packets and receives -----

  ghost predicate StatusOk(c: Config, x: Send, st: Status, m: nat, packets: map<nat, Packet>, longs: set<nat>) {
    && st.callbacks == (if Eager(c, x) || (st.issued && m !in longs) then 1 else 0)
    && (m in longs ==> st.issued)
    && (st.issued ==> !Eager(c, x))
    && match st.stage
       case Wire => !st.issued
       case InTable(p) => p in packets && packets[p] == Waiting(m, InRoom(c, Payload(c, x))) && !st.issued
       case Serving(p) => p in packets && packets[p].Served? && packets[p].msg == m && !Eager(c, x)
       case Done => Eager(c, x) || st.issued
  }

  ghost predicate ServedOk(pk: Packet, p: nat, sends: seq<Send>, status: seq<Status>, reqs: seq<Req>,
                              rtrs: map<nat, Rtr>, rdmas: map<nat, Rdma>, regs: seq<Reg>)
    requires pk.Served? && |sends| == |status|
  {
    && pk.msg < |status| && status[pk.msg].stage == Serving(p)
    && pk.req < |reqs| && reqs[pk.req].match_ == Some(pk.msg) && reqs[pk.req].completions == 0
    && pk.ref == (if pk.sending then 1 else 0) + (if p in rtrs || p in rdmas then 1 else 0)
    && pk.ref >= 1 && pk.mem < |regs| && regs[pk.mem].packet == p && regs[pk.mem].req == pk.req
    && regs[pk.mem].deregs == (if p in rtrs || p in rdmas then 0 else 1)
    && (p in rtrs ==> p !in rdmas && rtrs[p] == Rtr(pk.msg, pk.req) && !status[pk.msg].issued)
    && (p !in rtrs ==> status[pk.msg].issued)
    && (p in rdmas ==> rdmas[p] == Rdma(pk.req, sends[pk.msg].data))
    && (p !in rtrs && p !in rdmas ==> reqs[pk.req].buffer == Some(sends[pk.msg].data))
  }

  ghost predicate PacketOk(pk: Packet, p: nat, sends: seq<Send>, status: seq<Status>, reqs: seq<Req>,
                              rtrs: map<nat, Rtr>, rdmas: map<nat, Rdma>, regs: seq<Reg>)
    requires |sends| == |status|
  {
    match pk
    case Waiting(m, _) => m < |status| && status[m].stage == InTable(p) && p !in rtrs && p !in rdmas
    case Served(_, _, _, _, _) => ServedOk(pk, p, sends, status, reqs, rtrs, rdmas, regs)
  }

  /** A matched receive completes once, when its message is done, and then has its bytes; until then a packet serves
      it. */
  ghost predicate ReqOk(c: Config, q: Req, r: nat, sends: seq<Send>, status: seq<Status>, packets: map<nat, Packet>)
    requires |sends| == |status|
  {
    match q.match_
    case None => q.completions == 0 && q.buffer == None
    case Some(m) =>
      && m < |sends|
      && if status[m].stage == Done then q.completions == 1 && q.buffer == Some(Delivered(c, sends[m]))
         else
           && status[m].stage.Serving? && status[m].stage.packet in packets && q.completions == 0
           && packets[status[m].stage.packet].Served? && packets[status[m].stage.packet].req == r
  }

  ghost predicate Statuses(c: Config, sends: seq<Send>, status: seq<Status>, packets: map<nat, Packet>, longs: set<nat>) {
    && |sends| == |status|
    && (forall m :: 0 <= m < |status| ==> StatusOk(c, sends[m], status[m], m, packets, longs))
    && (forall m :: m in longs ==> m < |status|)
  }

  ghost predicate Packets(s: State)
    requires |s.sends| == |s.status|
  {
    && (forall p :: p in s.packets ==>
          PacketOk(s.packets[p], p, s.sends, s.status, s.reqs, s.rtrs, s.rdmas, s.regs))
    && s.rtrs.Keys <= s.packets.Keys && s.rdmas.Keys <= s.packets.Keys
    && Regs(s.regs, s.reqs, s.packets)
  }

  /** A registration was undone once if the data of its receive has arrived and not at all if not; until then a packet
      holds it. */
  ghost predicate RegOk(reg: Reg, x: nat, reqs: seq<Req>, packets: map<nat, Packet>) {
    && reg.req < |reqs| && reqs[reg.req].match_.Some?
    && reg.deregs == (if reqs[reg.req].buffer.Some? then 1 else 0)
    && (reg.deregs == 0 ==>
          reg.packet in packets && packets[reg.packet].Served? && packets[reg.packet].mem == x)
  }

  ghost predicate Regs(regs: seq<Reg>, reqs: seq<Req>, packets: map<nat, Packet>) {
    && (forall x :: 0 <= x < |regs| ==> RegOk(regs[x], x, reqs, packets))
    && (forall x, y :: 0 <= x < y < |regs| ==> regs[x].req != regs[y].req)
  }

  ghost predicate Reqs(c: Config, s: State)
    requires |s.sends| == |s.status|
  {
    forall r :: 0 <= r < |s.reqs| ==> ReqOk(c, s.reqs[r], r, s.sends, s.status, s.packets)
  }

  ghost predicate HasReg(regs: seq<Reg>, r: nat) {
    exists x :: 0 <= x < |regs| && regs[x].req == r
  }

  predicate LongMatched(c: Config, sends: seq<Send>, q: Req) {
    q.match_.Some? && q.match_.value < |sends| && !Eager(c, sends[q.match_.value])
  }

  /** Every receive matched with a long message got a registration. */
  ghost predicate Registered(c: Config, s: State) {
    forall r :: 0 <= r < |s.reqs| && LongMatched(c, s.sends, s.reqs[r]) ==> HasReg(s.regs, r)
  }

  ghost predicate Core(c: Config, s: State) {
    Statuses(c, s.sends, s.status, s.packets, s.longs) && Packets(s) && Reqs(c, s) && Registered(c, s)
  }

  lemma HasRegKept(regs: seq<Reg>, regs': seq<Reg>, r: nat)
    requires HasReg(regs, r) && |regs| <= |regs'|
    requires forall x :: 0 <= x < |regs| ==> regs'[x].req == regs[x].req
    ensures HasReg(regs', r)
  {
    var x :| 0 <= x < |regs| && regs[x].req == r;
    assert regs'[x].req == r;
  }

  // ----- Steps keep it -----

  lemma SendKeepsCore(c: Config, s: State, x: Send)
    requires Core(c, s)
    ensures Core(c, StepSend(c, s, x))
  {
    var t := StepSend(c, s, x);
    forall p | p in t.packets
      ensures PacketOk(t.packets[p], p, t.sends, t.status, t.reqs, t.rtrs, t.rdmas, t.regs)
    {
      assert PacketOk(s.packets[p], p, s.sends, s.status, s.reqs, s.rtrs, s.rdmas, s.regs);
    }
    forall r | 0 <= r < |t.reqs| ensures ReqOk(c, t.reqs[r], r, t.sends, t.status, t.packets) {
      assert ReqOk(c, s.reqs[r], r, s.sends, s.status, s.packets);
    }
  }

  lemma LongSentKeepsCore(c: Config, s: State, m: nat)
    requires Core(c, s) && m in s.longs
    ensures m < |s.status| && Core(c, StepLongSent(s, m))
  {
    var t := StepLongSent(s, m);
    assert StatusOk(c, s.sends[m], s.status[m], m, s.packets, s.longs);
    forall p | p in t.packets
      ensures PacketOk(t.packets[p], p, t.sends, t.status, t.reqs, t.rtrs, t.rdmas, t.regs)
    {
      assert PacketOk(s.packets[p], p, s.sends, s.status, s.reqs, s.rtrs, s.rdmas, s.regs);
    }
    forall r | 0 <= r < |t.reqs| ensures ReqOk(c, t.reqs[r], r, t.sends, t.status, t.packets) {
      assert ReqOk(c, s.reqs[r], r, s.sends, s.status, s.packets);
    }
  }

  /** The packet an RTR or RDMA write belongs to is in use, and everything the write needs is as it was set up. */
  lemma InFlightServed(c: Config, s: State, p: nat)
    requires Core(c, s) && (p in s.rtrs || p in s.rdmas)
    ensures p in s.packets && s.packets[p].Served?
    ensures ServedOk(s.packets[p], p, s.sends, s.status, s.reqs, s.rtrs, s.rdmas, s.regs)
    ensures StatusOk(c, s.sends[s.packets[p].msg], s.status[s.packets[p].msg], s.packets[p].msg, s.packets, s.longs)
  {
    assert p in s.rtrs.Keys || p in s.rdmas.Keys;
    assert PacketOk(s.packets[p], p, s.sends, s.status, s.reqs, s.rtrs, s.rdmas, s.regs);
  }

  lemma RtrArriveOther(s: State, p: nat, q: nat)
    requires |s.sends| == |s.status| && p in s.rtrs && q in s.packets && q != p
    requires s.rtrs[p].cb < |s.status| && s.status[s.rtrs[p].cb].stage == Serving(p)
    requires PacketOk(s.packets[q], q, s.sends, s.status, s.reqs, s.rtrs, s.rdmas, s.regs)
    ensures var t := StepRtrArrive(s, p);
      PacketOk(s.packets[q], q, s.sends, t.status, s.reqs, t.rtrs, t.rdmas, s.regs)
  {
  }

  lemma RtrArriveOwn(s: State, p: nat)
    requires |s.sends| == |s.status| && p in s.rtrs && p in s.packets && s.packets[p].Served?
    requires ServedOk(s.packets[p], p, s.sends, s.status, s.reqs, s.rtrs, s.rdmas, s.regs)
    ensures var t := StepRtrArrive(s, p);
      PacketOk(s.packets[p], p, s.sends, t.status, s.reqs, t.rtrs, t.rdmas, s.regs)
  {
  }

  lemma RtrArrivePacket(c: Config, s: State, p: nat, q: nat)
    requires Core(c, s) && p in s.rtrs && q in s.packets
    ensures s.rtrs[p].cb < |s.sends|
    ensures var t := StepRtrArrive(s, p);
      PacketOk(s.packets[q], q, s.sends, t.status, s.reqs, t.rtrs, t.rdmas, s.regs)
  {
    InFlightServed(c, s, p);
    if q == p {
      RtrArriveOwn(s, p);
    } else {
      assert PacketOk(s.packets[q], q, s.sends, s.status, s.reqs, s.rtrs, s.rdmas, s.regs);
      RtrArriveOther(s, p, q);
    }
  }

  lemma OtherIssued(c: Config, x: Send, st: Status, n: nat, m: nat, packets: map<nat, Packet>, longs: set<nat>)
    requires StatusOk(c, x, st, n, packets, longs) && n != m
    ensures StatusOk(c, x, st, n, packets, longs + {m})
  {
  }

  lemma RtrArriveStatuses(c: Config, s: State, p: nat)
    requires Core(c, s) && p in s.rtrs
    ensures s.rtrs[p].cb < |s.sends|
    ensures var t := StepRtrArrive(s, p); Statuses(c, t.sends, t.status, t.packets, t.longs)
  {
    InFlightServed(c, s, p);
    var t, m := StepRtrArrive(s, p), s.rtrs[p].cb;
    forall n | 0 <= n < |t.status| ensures StatusOk(c, t.sends[n], t.status[n], n, t.packets, t.longs) {
      if n != m { OtherIssued(c, s.sends[n], s.status[n], n, m, s.packets, s.longs); }
    }
  }

  /** Receives look at the stage of messages only. */
  lemma SameStages(c: Config, q: Req, r: nat, sends: seq<Send>, status: seq<Status>, status': seq<Status>, packets: map<nat, Packet>)
    requires |sends| == |status| == |status'| && ReqOk(c, q, r, sends, status, packets)
    requires forall n :: 0 <= n < |status| ==> status'[n].stage == status[n].stage
    ensures ReqOk(c, q, r, sends, status', packets)
  {
  }

  lemma RtrArriveReqs(c: Config, s: State, p: nat)
    requires Core(c, s) && p in s.rtrs
    ensures s.rtrs[p].cb < |s.sends| && Reqs(c, StepRtrArrive(s, p))
  {
    InFlightServed(c, s, p);
    var t := StepRtrArrive(s, p);
    assert forall n :: 0 <= n < |s.status| ==> t.status[n].stage == s.status[n].stage;
    forall r | 0 <= r < |t.reqs| ensures ReqOk(c, t.reqs[r], r, t.sends, t.status, t.packets) {
      SameStages(c, s.reqs[r], r, s.sends, s.status, t.status, s.packets);
    }
  }

  lemma RtrArriveKeepsCore(c: Config, s: State, p: nat)
    requires Core(c, s) && p in s.rtrs
    ensures s.rtrs[p].cb < |s.sends| && Core(c, StepRtrArrive(s, p))
  {
    RtrArriveStatuses(c, s, p);
    RtrArriveReqs(c, s, p);
    InFlightServed(c, s, p);
    var t := StepRtrArrive(s, p);
    forall q | q in t.packets
      ensures PacketOk(t.packets[q], q, t.sends, t.status, t.reqs, t.rtrs, t.rdmas, t.regs)
    {
      RtrArrivePacket(c, s, p, q);
    }
  }

  // A reference goes: first the state in between, then what `Drop` makes of it.

  /** Core, except that the packet p counts one reference more than it has. */
  ghost predicate Dropping(c: Config, s: State, p: nat) {
    && Statuses(c, s.sends, s.status, s.packets, s.longs) && Reqs(c, s) && Registered(c, s)
    && s.rtrs.Keys <= s.packets.Keys && s.rdmas.Keys <= s.packets.Keys
    && Regs(s.regs, s.reqs, s.packets)
    && Refers(s, p)
    && (forall q :: q in s.packets && q != p ==>
          PacketOk(s.packets[q], q, s.sends, s.status, s.reqs, s.rtrs, s.rdmas, s.regs))
    && var pk := s.packets[p];
       var left := (if pk.sending then 1 else 0) + if p in s.rtrs || p in s.rdmas then 1 else 0;
       && pk.ref == left + 1
       && (left > 0 ==> ServedOk(pk.(ref := left), p, s.sends, s.status, s.reqs, s.rtrs, s.rdmas, s.regs))
       && (left == 0 ==>
             && ServedOk(pk.(ref := 1, sending := true), p, s.sends, s.status, s.reqs, s.rtrs, s.rdmas, s.regs)
             && p !in s.rtrs && p !in s.rdmas)
  }

  lemma DropPacket(c: Config, s: State, p: nat, q: nat)
    requires Dropping(c, s, p) && q in Drop(s, p).packets
    ensures var t := Drop(s, p);
      PacketOk(t.packets[q], q, t.sends, t.status, t.reqs, t.rtrs, t.rdmas, t.regs)
  {
    if q != p {
      assert PacketOk(s.packets[q], q, s.sends, s.status, s.reqs, s.rtrs, s.rdmas, s.regs);
    }
  }

  lemma DropStatuses(c: Config, s: State, p: nat)
    requires Dropping(c, s, p)
    ensures var t := Drop(s, p); Statuses(c, t.sends, t.status, t.packets, t.longs)
  {
    var t := Drop(s, p);
    forall m | 0 <= m < |t.status| ensures StatusOk(c, t.sends[m], t.status[m], m, t.packets, t.longs) {
      assert StatusOk(c, s.sends[m], s.status[m], m, s.packets, s.longs);
    }
  }

  /** The last reference to p goes: its message is done and its receive complete. */
  lemma LastDropReq(c: Config, s: State, p: nat, r: nat)
    requires |s.sends| == |s.status| && Refers(s, p) && r < |s.reqs| && ReqOk(c, s.reqs[r], r, s.sends, s.status, s.packets)
    requires s.packets[p].ref == 1 && s.status[s.packets[p].msg].stage == Serving(p) && !Eager(c, s.sends[s.packets[p].msg])
    requires var q := s.reqs[s.packets[p].req];
      q.match_ == Some(s.packets[p].msg) && q.completions == 0 && q.buffer == Some(s.sends[s.packets[p].msg].data)
    ensures var t := Drop(s, p); ReqOk(c, t.reqs[r], r, t.sends, t.status, t.packets)
  {
  }

  lemma DropReq(c: Config, s: State, p: nat, r: nat)
    requires Dropping(c, s, p) && r < |s.reqs|
    ensures var t := Drop(s, p); ReqOk(c, t.reqs[r], r, t.sends, t.status, t.packets)
  {
    assert ReqOk(c, s.reqs[r], r, s.sends, s.status, s.packets);
    if s.packets[p].ref == 1 {
      var m := s.packets[p].msg;
      assert StatusOk(c, s.sends[m], s.status[m], m, s.packets, s.longs);
      LastDropReq(c, s, p, r);
    }
  }

  lemma DropReqs(c: Config, s: State, p: nat)
    requires Dropping(c, s, p)
    ensures Reqs(c, Drop(s, p))
  {
    var t := Drop(s, p);
    forall r | 0 <= r < |t.reqs| ensures ReqOk(c, t.reqs[r], r, t.sends, t.status, t.packets) { DropReq(c, s, p, r); }
  }

  lemma DropPackets(c: Config, s: State, p: nat)
    requires Dropping(c, s, p)
    ensures forall q :: q in Drop(s, p).packets ==>
      var t := Drop(s, p); PacketOk(t.packets[q], q, t.sends, t.status, t.reqs, t.rtrs, t.rdmas, t.regs)
  {
    var t := Drop(s, p);
    forall q | q in t.packets
      ensures PacketOk(t.packets[q], q, t.sends, t.status, t.reqs, t.rtrs, t.rdmas, t.regs)
    {
      DropPacket(c, s, p, q);
    }
  }

  lemma DropRegs(c: Config, s: State, p: nat)
    requires Dropping(c, s, p)
    ensures var t := Drop(s, p);
      && t.rtrs.Keys <= t.packets.Keys && t.rdmas.Keys <= t.packets.Keys
      && Regs(t.regs, t.reqs, t.packets)
  {
    var t := Drop(s, p);
    forall x | 0 <= x < |t.regs| ensures RegOk(t.regs[x], x, t.reqs, t.packets) {
      assert RegOk(s.regs[x], x, s.reqs, s.packets);
    }
  }

  lemma DropRegistered(c: Config, s: State, p: nat)
    requires Registered(c, s) && Refers(s, p)
    ensures Registered(c, Drop(s, p))
  {
    var t := Drop(s, p);
    forall k | 0 <= k < |t.reqs| && LongMatched(c, t.sends, t.reqs[k]) ensures HasReg(t.regs, k) {
      assert LongMatched(c, s.sends, s.reqs[k]);
    }
  }

  lemma DropKeepsCore(c: Config, s: State, p: nat)
    requires Dropping(c, s, p)
    ensures Core(c, Drop(s, p))
  {
    DropRegistered(c, s, p);
    DropStatuses(c, s, p);
    DropReqs(c, s, p);
    DropPackets(c, s, p);
    DropRegs(c, s, p);
  }

  /** The state of an RTR whose send completed, before its reference goes. */
  function Unsending(s: State, p: nat): State
    requires Refers(s, p)
  {
    s.(packets := s.packets[p := s.packets[p].(sending := false)])
  }

  lemma UnsendingStatuses(c: Config, s: State, p: nat)
    requires Core(c, s) && Refers(s, p)
    ensures var t := Unsending(s, p); Statuses(c, t.sends, t.status, t.packets, t.longs)
  {
    var t := Unsending(s, p);
    forall m | 0 <= m < |t.status| ensures StatusOk(c, t.sends[m], t.status[m], m, t.packets, t.longs) {
      assert StatusOk(c, s.sends[m], s.status[m], m, s.packets, s.longs);
    }
  }

  lemma UnsendingReqs(c: Config, s: State, p: nat)
    requires Core(c, s) && Refers(s, p)
    ensures Reqs(c, Unsending(s, p))
  {
    var t := Unsending(s, p);
    forall r | 0 <= r < |t.reqs| ensures ReqOk(c, t.reqs[r], r, t.sends, t.status, t.packets) {
      assert ReqOk(c, s.reqs[r], r, s.sends, s.status, s.packets);
    }
  }

  lemma UnsendingRegs(s: State, p: nat)
    requires Refers(s, p) && Regs(s.regs, s.reqs, s.packets)
    ensures var t := Unsending(s, p); Regs(t.regs, t.reqs, t.packets)
  {
    var t := Unsending(s, p);
    forall x | 0 <= x < |t.regs| ensures RegOk(t.regs[x], x, t.reqs, t.packets) {
      assert RegOk(s.regs[x], x, s.reqs, s.packets);
    }
  }

  lemma RtrSentDropping(c: Config, s: State, p: nat)
    requires Core(c, s) && Enabled(c, s, RtrSent(p))
    ensures Refers(s, p) && Dropping(c, Unsending(s, p), p)
  {
    assert PacketOk(s.packets[p], p, s.sends, s.status, s.reqs, s.rtrs, s.rdmas, s.regs);
    UnsendingStatuses(c, s, p);
    UnsendingReqs(c, s, p);
    UnsendingRegs(s, p);
  }

  /** The state of a rendezvous whose data arrived, before its reference goes. */
  function Written(s: State, p: nat): State
    requires p in s.rdmas && s.rdmas[p].target < |s.reqs| && Refers(s, p)
  {
    var d := s.rdmas[p];
    s.(rdmas := s.rdmas - {p}, reqs := s.reqs[d.target := s.reqs[d.target].(buffer := Some(d.payload))],
       regs := Undone(s.regs, s.packets[p].mem))
  }

  /** Another packet serves another message and another receive, and holds another registration. */
  lemma WrittenOther(s: State, p: nat, q: nat)
    requires |s.sends| == |s.status| && Refers(s, p) && q in s.packets && q != p && p in s.rdmas
    requires s.rdmas[p].target == s.packets[p].req && s.reqs[s.packets[p].req].match_ == Some(s.packets[p].msg)
    requires s.status[s.packets[p].msg].stage == Serving(p)
    requires s.packets[p].mem < |s.regs| && s.regs[s.packets[p].mem].packet == p
    requires PacketOk(s.packets[q], q, s.sends, s.status, s.reqs, s.rtrs, s.rdmas, s.regs)
    ensures var t := Written(s, p);
      PacketOk(t.packets[q], q, t.sends, t.status, t.reqs, t.rtrs, t.rdmas, t.regs)
  {
  }

  lemma WrittenPacket(c: Config, s: State, p: nat, q: nat)
    requires Core(c, s) && p in s.rdmas && q in s.packets && q != p
    ensures Refers(s, p) && s.rdmas[p].target < |s.reqs|
    ensures var t := Written(s, p);
      PacketOk(t.packets[q], q, t.sends, t.status, t.reqs, t.rtrs, t.rdmas, t.regs)
  {
    InFlightServed(c, s, p);
    assert PacketOk(s.packets[q], q, s.sends, s.status, s.reqs, s.rtrs, s.rdmas, s.regs);
    WrittenOther(s, p, q);
  }

  lemma WrittenReqs(c: Config, s: State, p: nat)
    requires Core(c, s) && p in s.rdmas
    ensures Refers(s, p) && s.rdmas[p].target < |s.reqs| && Reqs(c, Written(s, p))
  {
    InFlightServed(c, s, p);
    var t := Written(s, p);
    forall r | 0 <= r < |t.reqs| ensures ReqOk(c, t.reqs[r], r, t.sends, t.status, t.packets) {
      assert ReqOk(c, s.reqs[r], r, s.sends, s.status, s.packets);
    }
  }

  lemma WrittenRegs(c: Config, s: State, p: nat)
    requires Core(c, s) && p in s.rdmas
    ensures Refers(s, p) && s.rdmas[p].target < |s.reqs|
    ensures s.packets[p].mem < |s.regs| && s.regs[s.packets[p].mem].deregs == 0
    ensures var t := Written(s, p);
      && t.rtrs.Keys <= t.packets.Keys && t.rdmas.Keys <= t.packets.Keys
      && Regs(t.regs, t.reqs, t.packets)
  {
    InFlightServed(c, s, p);
    var t := Written(s, p);
    forall x | 0 <= x < |t.regs| ensures RegOk(t.regs[x], x, t.reqs, t.packets) {
      assert RegOk(s.regs[x], x, s.reqs, s.packets);
    }
  }

  lemma WrittenRegistered(c: Config, s: State, p: nat)
    requires Registered(c, s) && p in s.rdmas && s.rdmas[p].target < |s.reqs| && Refers(s, p)
    ensures Registered(c, Written(s, p))
  {
    var t := Written(s, p);
    forall k | 0 <= k < |t.reqs| && LongMatched(c, t.sends, t.reqs[k]) ensures HasReg(t.regs, k) {
      assert LongMatched(c, s.sends, s.reqs[k]);
      HasRegKept(s.regs, t.regs, k);
    }
  }

  /** When the data arrives the packet is there, its memory is registered, and one reference is due. */
  lemma RdmaDropping(c: Config, s: State, p: nat)
    requires Core(c, s) && p in s.rdmas
    ensures Refers(s, p) && s.rdmas[p].target < |s.reqs|
    ensures s.packets[p].mem < |s.regs| && s.regs[s.packets[p].mem].deregs == 0 && Dropping(c, Written(s, p), p)
  {
    InFlightServed(c, s, p);
    WrittenReqs(c, s, p);
    WrittenRegistered(c, s, p);
    WrittenRegs(c, s, p);
    var t := Written(s, p);
    forall q | q in t.packets && q != p
      ensures PacketOk(t.packets[q], q, t.sends, t.status, t.reqs, t.rtrs, t.rdmas, t.regs)
    {
      WrittenPacket(c, s, p, q);
    }
  }

  // A receive and a packet meet.

  /** Receive r is unmatched; packet p, free or waiting, holds message m with the bytes b. */
  ghost predicate CanMeet(c: Config, s: State, r: nat, p: nat, m: nat, b: Bytes)
    requires |s.sends| == |s.status|
  {
    && r < |s.reqs| && m < |s.status| && s.reqs[r].match_ == None && !s.status[m].issued
    && b == InRoom(c, Payload(c, s.sends[m]))
    && if p in s.packets then s.packets[p] == Waiting(m, b) && s.status[m].stage == InTable(p)
       else s.status[m].stage == Wire
  }

  lemma MeetStatuses(c: Config, s: State, r: nat, p: nat, m: nat, b: Bytes)
    requires Core(c, s) && CanMeet(c, s, r, p, m, b)
    ensures var t := Meet(c, s, r, p, m, b); Statuses(c, t.sends, t.status, t.packets, t.longs)
  {
    var t := Meet(c, s, r, p, m, b);
    assert StatusOk(c, s.sends[m], s.status[m], m, s.packets, s.longs);
    forall n | 0 <= n < |t.status| ensures StatusOk(c, t.sends[n], t.status[n], n, t.packets, t.longs) {
      assert StatusOk(c, s.sends[n], s.status[n], n, s.packets, s.longs);
    }
  }

  lemma MeetReq(c: Config, s: State, r: nat, p: nat, m: nat, b: Bytes, k: nat)
    requires Core(c, s) && CanMeet(c, s, r, p, m, b) && k < |s.reqs|
    ensures var t := Meet(c, s, r, p, m, b); ReqOk(c, t.reqs[k], k, t.sends, t.status, t.packets)
  {
    assert ReqOk(c, s.reqs[k], k, s.sends, s.status, s.packets);
    assert StatusOk(c, s.sends[m], s.status[m], m, s.packets, s.longs);
  }

  /** A served packet looks at its own message, receive and registration only. */
  lemma ServedFrame(pk: Packet, q: nat, sends: seq<Send>, status: seq<Status>, status': seq<Status>, reqs: seq<Req>,
                    reqs': seq<Req>, rtrs: map<nat, Rtr>, rtrs': map<nat, Rtr>, rdmas: map<nat, Rdma>, regs: seq<Reg>,
                    regs': seq<Reg>)
    requires pk.Served? && |sends| == |status| == |status'| && |reqs| == |reqs'| && regs <= regs'
    requires ServedOk(pk, q, sends, status, reqs, rtrs, rdmas, regs)
    requires status'[pk.msg] == status[pk.msg] && reqs'[pk.req] == reqs[pk.req]
    requires if q in rtrs then q in rtrs' && rtrs'[q] == rtrs[q] else q !in rtrs'
    ensures ServedOk(pk, q, sends, status', reqs', rtrs', rdmas, regs')
  {
    assert regs'[pk.mem] == regs[pk.mem];
  }

  lemma MeetOtherPacket(c: Config, s: State, r: nat, p: nat, m: nat, b: Bytes, q: nat)
    requires |s.sends| == |s.status| && CanMeet(c, s, r, p, m, b) && q in s.packets && q != p
    requires PacketOk(s.packets[q], q, s.sends, s.status, s.reqs, s.rtrs, s.rdmas, s.regs)
    ensures var t := Meet(c, s, r, p, m, b);
      PacketOk(s.packets[q], q, t.sends, t.status, t.reqs, t.rtrs, t.rdmas, t.regs)
  {
    var t, pk := Meet(c, s, r, p, m, b), s.packets[q];
    if pk.Served? {
      assert pk.msg != m && pk.req != r;
      ServedFrame(pk, q, s.sends, s.status, t.status, s.reqs, t.reqs, s.rtrs, t.rtrs, s.rdmas, s.regs, t.regs);
    }
  }

  lemma MeetServes(c: Config, s: State, r: nat, p: nat, m: nat, b: Bytes)
    requires |s.sends| == |s.status| && CanMeet(c, s, r, p, m, b) && !Eager(c, s.sends[m]) && p !in s.rtrs && p !in s.rdmas
    requires ReqOk(c, s.reqs[r], r, s.sends, s.status, s.packets)
    ensures var t := Meet(c, s, r, p, m, b);
      PacketOk(t.packets[p], p, t.sends, t.status, t.reqs, t.rtrs, t.rdmas, t.regs)
  {
  }

  lemma MeetPacket(c: Config, s: State, r: nat, p: nat, m: nat, b: Bytes, q: nat)
    requires Core(c, s) && CanMeet(c, s, r, p, m, b) && q in Meet(c, s, r, p, m, b).packets
    ensures var t := Meet(c, s, r, p, m, b);
      PacketOk(t.packets[q], q, t.sends, t.status, t.reqs, t.rtrs, t.rdmas, t.regs)
  {
    if q == p {
      assert p !in s.packets ==> p !in s.rtrs.Keys && p !in s.rdmas.Keys;
      if p in s.packets {
        assert PacketOk(s.packets[p], p, s.sends, s.status, s.reqs, s.rtrs, s.rdmas, s.regs);
      }
      assert ReqOk(c, s.reqs[r], r, s.sends, s.status, s.packets);
      MeetServes(c, s, r, p, m, b);
    } else {
      assert PacketOk(s.packets[q], q, s.sends, s.status, s.reqs, s.rtrs, s.rdmas, s.regs);
      MeetOtherPacket(c, s, r, p, m, b, q);
    }
  }

  lemma MeetReg(c: Config, s: State, r: nat, p: nat, m: nat, b: Bytes, x: nat)
    requires Core(c, s) && CanMeet(c, s, r, p, m, b) && x < |s.regs|
    ensures var t := Meet(c, s, r, p, m, b); RegOk(s.regs[x], x, t.reqs, t.packets) && s.regs[x].req != r
  {
    assert RegOk(s.regs[x], x, s.reqs, s.packets);
  }

  lemma RegsSnoc(regs: seq<Reg>, reg: Reg, reqs: seq<Req>, packets: map<nat, Packet>)
    requires forall x :: 0 <= x < |regs| ==> RegOk(regs[x], x, reqs, packets) && regs[x].req != reg.req
    requires forall x, y :: 0 <= x < y < |regs| ==> regs[x].req != regs[y].req
    requires RegOk(reg, |regs|, reqs, packets)
    ensures Regs(regs + [reg], reqs, packets)
  {
  }

  lemma MeetRegs(c: Config, s: State, r: nat, p: nat, m: nat, b: Bytes)
    requires Core(c, s) && CanMeet(c, s, r, p, m, b)
    ensures var t := Meet(c, s, r, p, m, b); Regs(t.regs, t.reqs, t.packets)
  {
    var t := Meet(c, s, r, p, m, b);
    forall x | 0 <= x < |s.regs| ensures RegOk(s.regs[x], x, t.reqs, t.packets) && s.regs[x].req != r {
      MeetReg(c, s, r, p, m, b, x);
    }
    assert ReqOk(c, s.reqs[r], r, s.sends, s.status, s.packets);
    if !Eager(c, s.sends[m]) { RegsSnoc(s.regs, Reg(p, r, 0), t.reqs, t.packets); }
  }

  lemma MeetRegistered(c: Config, s: State, r: nat, p: nat, m: nat, b: Bytes)
    requires Registered(c, s) && |s.sends| == |s.status| && CanMeet(c, s, r, p, m, b)
    ensures Registered(c, Meet(c, s, r, p, m, b))
  {
    var t := Meet(c, s, r, p, m, b);
    forall k | 0 <= k < |t.reqs| && LongMatched(c, t.sends, t.reqs[k]) ensures HasReg(t.regs, k) {
      if k == r { assert t.regs[|s.regs|].req == r; } else { HasRegKept(s.regs, t.regs, k); }
    }
  }

  lemma MeetKeys(c: Config, s: State, r: nat, p: nat, m: nat, b: Bytes)
    requires Core(c, s) && CanMeet(c, s, r, p, m, b)
    ensures var t := Meet(c, s, r, p, m, b); t.rtrs.Keys <= t.packets.Keys && t.rdmas.Keys <= t.packets.Keys
  {
    if p in s.packets {
      assert PacketOk(s.packets[p], p, s.sends, s.status, s.reqs, s.rtrs, s.rdmas, s.regs);
    }
  }

  lemma MeetKeepsCore(c: Config, s: State, r: nat, p: nat, m: nat, b: Bytes)
    requires Core(c, s) && CanMeet(c, s, r, p, m, b)
    ensures Core(c, Meet(c, s, r, p, m, b))
  {
    var t := Meet(c, s, r, p, m, b);
    MeetStatuses(c, s, r, p, m, b);
    MeetRegs(c, s, r, p, m, b);
    MeetRegistered(c, s, r, p, m, b);
    MeetKeys(c, s, r, p, m, b);
    forall k | 0 <= k < |t.reqs| ensures ReqOk(c, t.reqs[k], k, t.sends, t.status, t.packets) { MeetReq(c, s, r, p, m, b, k); }
    forall q | q in t.packets
      ensures PacketOk(t.packets[q], q, t.sends, t.status, t.reqs, t.rtrs, t.rdmas, t.regs)
    {
      MeetPacket(c, s, r, p, m, b, q);
    }
  }
}
