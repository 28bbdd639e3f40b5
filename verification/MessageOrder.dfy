/** End-to-end order: which receive gets which message. */
module MessageOrder {
  import opened Wrappers
  import M = MatchTable
  import opened Messaging

  // ----- Sends, receives and arrivals of one source and tag -----

  /** The receives posted for (src, tag), oldest first. */
  function RecvItems(recvs: seq<Recv>, src: nat, tag: nat): seq<Item>
    decreases |recvs|
  {
    if recvs == [] then []
    else
      var n := |recvs| - 1;
      RecvItems(recvs[..n], src, tag) + if recvs[n] == Recv(src, tag) then [ReqItem(n)] else []
  }

  /** The messages sent by src under tag, oldest first. */
  function Ids(sends: seq<Send>, src: nat, tag: nat): seq<nat>
    decreases |sends|
  {
    if sends == [] then []
    else
      var n := |sends| - 1;
      Ids(sends[..n], src, tag) + if sends[n].src == src && sends[n].tag == tag then [n] else []
  }

  /** The messages with a tag among packets on the wire. */
  function Tagged(wire: seq<WirePacket>, tag: nat): seq<nat> {
    if wire == [] then [] else (if wire[0].tag == tag then [wire[0].msg] else []) + Tagged(wire[1..], tag)
  }

  lemma {:induction false} TaggedSnoc(wire: seq<WirePacket>, w: WirePacket, tag: nat)
    ensures Tagged(wire + [w], tag) == Tagged(wire, tag) + if w.tag == tag then [w.msg] else []
  {
    if wire != [] {
      assert (wire + [w])[1..] == wire[1..] + [w];
      TaggedSnoc(wire[1..], w, tag);
    }
  }

  function MsgOf(item: Item): nat {
    if item.PktItem? then item.msg else 0
  }

  function MsgsOf(items: seq<Item>): seq<nat>
    decreases |items|
  {
    if items == [] then [] else MsgsOf(items[..|items| - 1]) + [MsgOf(items[|items| - 1])]
  }

  lemma {:induction false} MsgsOfAt(items: seq<Item>, j: nat)
    requires j < |items|
    ensures |MsgsOf(items)| == |items| && MsgsOf(items)[j] == MsgOf(items[j])
    decreases |items|
  {
    var n := |items| - 1;
    if n > 0 { MsgsOfAt(items[..n], if j < n then j else 0); }
  }

  // ----- The table's side of the invariant -----

  function Waiters(c: Config, posts: seq<M.Post<Item>>, src: nat, tag: nat, side: M.Side): seq<Item> {
    M.Queue(M.After(posts, c.hash, Nothing), c.hash, Key(src, tag), side, Nothing)
  }

  function Pairs(c: Config, posts: seq<M.Post<Item>>, src: nat, tag: nat): seq<(Item, Item)> {
    M.Matched(posts, c.hash, Nothing, Key(src, tag))
  }

  predicate ClientWaits(recvs: seq<Recv>, reqs: seq<Req>, item: Item, src: nat, tag: nat) {
    item.ReqItem? && item.req < |recvs| == |reqs| && recvs[item.req] == Recv(src, tag) && reqs[item.req].match_ == None
  }

  predicate ServerWaits(sends: seq<Send>, status: seq<Status>, item: Item, src: nat, tag: nat) {
    && item.PktItem? && item.msg < |sends| == |status| && sends[item.msg].src == src && sends[item.msg].tag == tag
    && status[item.msg].stage == InTable(item.packet)
  }

  predicate PairOk(reqs: seq<Req>, pair: (Item, Item)) {
    pair.0.ReqItem? && pair.1.PktItem? && pair.0.req < |reqs| && reqs[pair.0.req].match_ == Some(pair.1.msg)
  }

  ghost predicate Distinct(q: seq<Item>) {
    forall i, j :: 0 <= i < j < |q| ==> q[i] != q[j]
  }

  ghost predicate ClientsWait(recvs: seq<Recv>, reqs: seq<Req>, q: seq<Item>, src: nat, tag: nat) {
    Distinct(q) && forall j :: 0 <= j < |q| ==> ClientWaits(recvs, reqs, q[j], src, tag)
  }

  ghost predicate ServersWait(sends: seq<Send>, status: seq<Status>, q: seq<Item>, src: nat, tag: nat) {
    Distinct(q) && forall j :: 0 <= j < |q| ==> ServerWaits(sends, status, q[j], src, tag)
  }

  ghost predicate PairsOk(reqs: seq<Req>, pairs: seq<(Item, Item)>) {
    forall j :: 0 <= j < |pairs| ==> PairOk(reqs, pairs[j])
  }

  /** Receives entered the table in the order they were posted; messages in the order they were sent. */
  ghost predicate OrderOk(posts: seq<M.Post<Item>>, recvs: seq<Recv>, wire: seq<WirePacket>, sends: seq<Send>,
                          src: nat, tag: nat)
  {
    && M.Posted(posts, Key(src, tag), M.Client) == RecvItems(recvs, src, tag)
    && MsgsOf(M.Posted(posts, Key(src, tag), M.Server)) + Tagged(wire, tag) == Ids(sends, src, tag)
  }

  ghost predicate InOrder(s: State, src: nat, tag: nat) {
    OrderOk(s.posts, s.recvs, WireOf(s, src), s.sends, src, tag)
  }

  ghost predicate WaitingOk(c: Config, s: State, src: nat, tag: nat) {
    && ClientsWait(s.recvs, s.reqs, Waiters(c, s.posts, src, tag, M.Client), src, tag)
    && ServersWait(s.sends, s.status, Waiters(c, s.posts, src, tag, M.Server), src, tag)
    && PairsOk(s.reqs, Pairs(c, s.posts, src, tag))
  }

  predicate OnWire(c: Config, sends: seq<Send>, status: seq<Status>, w: WirePacket, src: nat) {
    && w.msg < |sends| == |status| && sends[w.msg].src == src && sends[w.msg].tag == w.tag
    && w.payload == Payload(c, sends[w.msg]) && status[w.msg].stage == Wire && Address(src, w.tag)
  }

  ghost predicate WireOk(c: Config, sends: seq<Send>, status: seq<Status>, wire: seq<WirePacket>, src: nat) {
    && (forall j :: 0 <= j < |wire| ==> OnWire(c, sends, status, wire[j], src))
    && (forall i, j :: 0 <= i < j < |wire| ==> wire[i].msg != wire[j].msg)
  }

  ghost predicate Keys(c: Config, s: State) {
    forall src: nat, tag: nat :: Address(src, tag) ==> InOrder(s, src, tag) && WaitingOk(c, s, src, tag)
  }

  ghost predicate Wires(c: Config, s: State) {
    forall src: nat :: WireOk(c, s.sends, s.status, WireOf(s, src), src)
  }

  ghost predicate Addressed(recvs: seq<Recv>) {
    forall r :: 0 <= r < |recvs| ==> Address(recvs[r].src, recvs[r].tag)
  }

  /** The parts of `Order` that concern no single key or wire. */
  ghost predicate Sizes(s: State) {
    |s.recvs| == |s.reqs| && |s.sends| == |s.status| && Addressed(s.recvs) && M.UsableKeys(s.posts)
  }

  ghost predicate Order(c: Config, s: State) {
    Sizes(s) && Wires(c, s) && Keys(c, s)
  }

  ghost predicate Inv(c: Config, s: State) {
    Core(c, s) && Order(c, s)
  }

  // ----- Steps that leave the table alone -----

  /** Requests keep their match and messages on the wire or in the table stay there. */
  ghost predicate Quiet(s: State, t: State) {
    && t.sends == s.sends && t.recvs == s.recvs && t.posts == s.posts && t.wires == s.wires
    && |t.reqs| == |s.reqs| && |t.status| == |s.status|
    && (forall r :: 0 <= r < |s.reqs| ==> t.reqs[r].match_ == s.reqs[r].match_)
    && (forall m :: 0 <= m < |s.status| && !s.status[m].stage.Serving? ==> t.status[m].stage == s.status[m].stage)
  }

  lemma QuietKeepsWaiting(c: Config, s: State, t: State, src: nat, tag: nat)
    requires Quiet(s, t) && WaitingOk(c, s, src, tag)
    ensures WaitingOk(c, t, src, tag)
  {
    var qc, qs := Waiters(c, s.posts, src, tag, M.Client), Waiters(c, s.posts, src, tag, M.Server);
    forall j | 0 <= j < |qc| ensures ClientWaits(t.recvs, t.reqs, qc[j], src, tag) {
      assert ClientWaits(s.recvs, s.reqs, qc[j], src, tag);
    }
    forall j | 0 <= j < |qs| ensures ServerWaits(t.sends, t.status, qs[j], src, tag) {
      assert ServerWaits(s.sends, s.status, qs[j], src, tag);
    }
    var pairs := Pairs(c, s.posts, src, tag);
    forall j | 0 <= j < |pairs| ensures PairOk(t.reqs, pairs[j]) { assert PairOk(s.reqs, pairs[j]); }
  }

  lemma QuietKeepsOrder(c: Config, s: State, t: State)
    requires Quiet(s, t) && Order(c, s)
    ensures Order(c, t)
  {
    forall src: nat, tag: nat | Address(src, tag) ensures InOrder(t, src, tag) && WaitingOk(c, t, src, tag) {
      assert InOrder(s, src, tag) && WaitingOk(c, s, src, tag);
      QuietKeepsWaiting(c, s, t, src, tag);
    }
    forall src: nat ensures WireOk(c, t.sends, t.status, WireOf(t, src), src) {
      assert WireOk(c, s.sends, s.status, WireOf(s, src), src);
      forall j | 0 <= j < |WireOf(s, src)| ensures OnWire(c, t.sends, t.status, WireOf(s, src)[j], src) {
        assert OnWire(c, s.sends, s.status, WireOf(s, src)[j], src);
      }
    }
  }

  // ----- Sending -----

  lemma SendKeepsKey(c: Config, s: State, x: Send, src: nat, tag: nat)
    requires |s.sends| == |s.status| && InOrder(s, src, tag) && WaitingOk(c, s, src, tag)
    ensures InOrder(StepSend(c, s, x), src, tag) && WaitingOk(c, StepSend(c, s, x), src, tag)
  {
    var t := StepSend(c, s, x);
    assert t.sends[..|s.sends|] == s.sends;
    TaggedSnoc(WireOf(s, src), WirePacket(|s.sends|, x.tag, Payload(c, x)), tag);
    var qs := Waiters(c, s.posts, src, tag, M.Server);
    forall j | 0 <= j < |qs| ensures ServerWaits(t.sends, t.status, qs[j], src, tag) {
      assert ServerWaits(s.sends, s.status, qs[j], src, tag);
    }
  }

  lemma SendKeepsOrder(c: Config, s: State, x: Send)
    requires Order(c, s) && Address(x.src, x.tag)
    ensures Order(c, StepSend(c, s, x))
  {
    var t := StepSend(c, s, x);
    forall src: nat, tag: nat | Address(src, tag) ensures InOrder(t, src, tag) && WaitingOk(c, t, src, tag) {
      assert InOrder(s, src, tag) && WaitingOk(c, s, src, tag);
      SendKeepsKey(c, s, x, src, tag);
    }
    forall src: nat ensures WireOk(c, t.sends, t.status, WireOf(t, src), src) {
      SendKeepsWire(c, s, x, src);
    }
  }

  lemma SendKeepsWire(c: Config, s: State, x: Send, src: nat)
    requires |s.sends| == |s.status| && WireOk(c, s.sends, s.status, WireOf(s, src), src) && Address(x.src, x.tag)
    ensures var t := StepSend(c, s, x); WireOk(c, t.sends, t.status, WireOf(t, src), src)
  {
    var t := StepSend(c, s, x);
    var w := WireOf(s, src);
    forall j | 0 <= j < |w| ensures OnWire(c, t.sends, t.status, w[j], src) && w[j].msg != |s.sends| {
      assert OnWire(c, s.sends, s.status, w[j], src);
    }
  }

  // ----- Posting to the table -----

  /** What one more post does to the posts, queue and pairs of a key. */
  lemma PostEffect(c: Config, posts: seq<M.Post<Item>>, p: M.Post<Item>, k: nat)
    requires M.Usable(p.key) && M.Usable(k)
    ensures var (before, after) := (M.After(posts, c.hash, Nothing), M.After(posts + [p], c.hash, Nothing));
      var other := M.Queue(before, c.hash, p.key, M.Opposite(p.side), Nothing);
      var out := M.TableInsert(before, c.hash, p.key, p.value, p.side, Nothing).1;
      && out.inserted == (other == []) && (other != [] ==> out.value == other[0])
      && (forall side :: M.Posted(posts + [p], k, side) ==
            M.Posted(posts, k, side) + if p.key == k && p.side == side then [p.value] else [])
      && M.Matched(posts + [p], c.hash, Nothing, k) ==
           M.Matched(posts, c.hash, Nothing, k) + (if p.key == k && other != [] then [M.Pair(p, other[0])] else [])
      && (forall side :: M.Queue(after, c.hash, k, side, Nothing) ==
            if k == p.key && side == p.side && other == [] then M.Queue(before, c.hash, k, side, Nothing) + [p.value]
            else if k == p.key && side != p.side && other != [] then other[1..]
            else M.Queue(before, c.hash, k, side, Nothing))
  {
    assert (posts + [p])[..|posts|] == posts;
    var before := M.After(posts, c.hash, Nothing);
    forall side {
      M.TableInsertQueues(before, c.hash, p.key, p.value, p.side, Nothing, k, side);
    }
  }

  lemma ClientsFrame(recvs: seq<Recv>, reqs: seq<Req>, reqs': seq<Req>, q: seq<Item>, src: nat, tag: nat, r: nat)
    requires ClientsWait(recvs, reqs, q, src, tag) && |reqs'| == |reqs|
    requires forall k :: 0 <= k < |reqs| && k != r ==> reqs'[k] == reqs[k]
    requires forall j :: 0 <= j < |q| ==> q[j] != ReqItem(r)
    ensures ClientsWait(recvs, reqs', q, src, tag)
  {
    forall j | 0 <= j < |q| ensures ClientWaits(recvs, reqs', q[j], src, tag) {
      assert ClientWaits(recvs, reqs, q[j], src, tag);
    }
  }

  lemma ServersFrame(sends: seq<Send>, status: seq<Status>, status': seq<Status>, q: seq<Item>, src: nat, tag: nat, m: nat)
    requires ServersWait(sends, status, q, src, tag) && |status'| == |status|
    requires forall n :: 0 <= n < |status| && n != m ==> status'[n] == status[n]
    requires forall j :: 0 <= j < |q| ==> MsgOf(q[j]) != m
    ensures ServersWait(sends, status', q, src, tag)
  {
    forall j | 0 <= j < |q| ensures ServerWaits(sends, status', q[j], src, tag) {
      assert ServerWaits(sends, status, q[j], src, tag);
    }
  }

  lemma PairsFrame(reqs: seq<Req>, reqs': seq<Req>, pairs: seq<(Item, Item)>)
    requires PairsOk(reqs, pairs) && |reqs| <= |reqs'|
    requires forall k :: 0 <= k < |reqs| && reqs[k].match_ != None ==> reqs'[k].match_ == reqs[k].match_
    ensures PairsOk(reqs', pairs)
  {
    forall j | 0 <= j < |pairs| ensures PairOk(reqs', pairs[j]) { assert PairOk(reqs, pairs[j]); }
  }

  lemma WireFrame(c: Config, sends: seq<Send>, status: seq<Status>, status': seq<Status>, wire: seq<WirePacket>, src: nat, m: nat)
    requires WireOk(c, sends, status, wire, src) && |status'| == |status|
    requires forall n :: 0 <= n < |status| && n != m ==> status'[n] == status[n]
    requires forall j :: 0 <= j < |wire| ==> wire[j].msg != m
    ensures WireOk(c, sends, status', wire, src)
  {
    forall j | 0 <= j < |wire| ensures OnWire(c, sends, status', wire[j], src) { assert OnWire(c, sends, status, wire[j], src); }
  }

  /** Waiting items of another key are for other messages, and so are those behind the first of the same key. */
  lemma OtherMessages(sends: seq<Send>, status: seq<Status>, q: seq<Item>, src: nat, tag: nat, m: nat)
    requires ServersWait(sends, status, q, src, tag) && m < |sends|
    requires sends[m].src != src || sends[m].tag != tag
    ensures forall j :: 0 <= j < |q| ==> MsgOf(q[j]) != m
  {
    forall j | 0 <= j < |q| ensures MsgOf(q[j]) != m { assert ServerWaits(sends, status, q[j], src, tag); }
  }

  lemma TailMessages(sends: seq<Send>, status: seq<Status>, q: seq<Item>, src: nat, tag: nat)
    requires ServersWait(sends, status, q, src, tag) && q != []
    ensures ServersWait(sends, status, q[1..], src, tag)
    ensures forall j :: 0 <= j < |q[1..]| ==> MsgOf(q[1..][j]) != MsgOf(q[0])
  {
    assert ServerWaits(sends, status, q[0], src, tag);
    forall j | 0 <= j < |q[1..]| ensures MsgOf(q[1..][j]) != MsgOf(q[0]) && ServerWaits(sends, status, q[1..][j], src, tag) {
      assert ServerWaits(sends, status, q[j + 1], src, tag) && q[0] != q[j + 1];
    }
  }

  lemma TailClients(recvs: seq<Recv>, reqs: seq<Req>, q: seq<Item>, src: nat, tag: nat)
    requires ClientsWait(recvs, reqs, q, src, tag) && q != []
    ensures ClientsWait(recvs, reqs, q[1..], src, tag)
    ensures forall j :: 0 <= j < |q[1..]| ==> q[1..][j] != q[0]
  {
    forall j | 0 <= j < |q[1..]| ensures q[1..][j] != q[0] && ClientWaits(recvs, reqs, q[1..][j], src, tag) {
      assert ClientWaits(recvs, reqs, q[j + 1], src, tag) && q[0] != q[j + 1];
    }
  }

  /** What a meeting changes for the table. */
  lemma MeetFrame(c: Config, s: State, r: nat, p: nat, m: nat, b: Bytes)
    requires m < |s.sends| == |s.status| && r < |s.reqs|
    ensures var t := Meet(c, s, r, p, m, b);
      && t.sends == s.sends && t.recvs == s.recvs && t.posts == s.posts && t.wires == s.wires
      && |t.reqs| == |s.reqs| && |t.status| == |s.status| && t.reqs[r].match_ == Some(m)
      && (forall k :: 0 <= k < |s.reqs| && k != r ==> t.reqs[k] == s.reqs[k])
      && (forall n :: 0 <= n < |s.status| && n != m ==> t.status[n] == s.status[n])
  {
  }

  // ----- Receiving -----

  /** The state once a receive is on record and before it meets anybody. */
  function Recorded(s: State, src: nat, tag: nat): State {
    s.(recvs := s.recvs + [Recv(src, tag)], reqs := s.reqs + [Req(None, 0, None)], posts := s.posts + [RecvPost(s, src, tag)])
  }

  lemma RecordedCore(c: Config, s: State, src: nat, tag: nat)
    requires Core(c, s)
    ensures Core(c, Recorded(s, src, tag))
  {
    var t := Recorded(s, src, tag);
    forall p | p in t.packets
      ensures PacketOk(t.packets[p], p, t.sends, t.status, t.reqs, t.rtrs, t.rdmas, t.regs)
    {
      assert PacketOk(s.packets[p], p, s.sends, s.status, s.reqs, s.rtrs, s.rdmas, s.regs);
    }
    forall r | 0 <= r < |t.reqs| ensures ReqOk(c, t.reqs[r], r, t.sends, t.status, t.packets) {
      if r < |s.reqs| { assert ReqOk(c, s.reqs[r], r, s.sends, s.status, s.packets); }
    }
  }

  lemma RecvFinds(c: Config, s: State, src: nat, tag: nat)
    requires Inv(c, s) && Address(src, tag)
    ensures var q := Waiters(c, s.posts, src, tag, M.Server);
      var out := Lookup(c, s, RecvPost(s, src, tag));
      && out.inserted == (q == []) && (q != [] ==> out.value == q[0] && ServerWaits(s.sends, s.status, q[0], src, tag))
      && StepRecv(c, s, src, tag) ==
           if q == [] then Recorded(s, src, tag) else Meet(c, Recorded(s, src, tag), |s.reqs|, q[0].packet, q[0].msg, BytesIn(s.packets, q[0].packet))
  {
    KeysDiffer(src, tag, src, tag);
    PostEffect(c, s.posts, RecvPost(s, src, tag), Key(src, tag));
    assert WaitingOk(c, s, src, tag);
  }

  /** A message in the table sits in its packet and has not been written. */
  lemma ShelvedMessage(c: Config, s: State, item: Item, src: nat, tag: nat)
    requires Statuses(c, s.sends, s.status, s.packets, s.longs) && ServerWaits(s.sends, s.status, item, src, tag)
    ensures item.packet in s.packets && s.packets[item.packet] == Waiting(item.msg, InRoom(c, Payload(c, s.sends[item.msg]))) && !s.status[item.msg].issued
  {
    assert StatusOk(c, s.sends[item.msg], s.status[item.msg], item.msg, s.packets, s.longs);
  }

  /** So a receive just recorded can meet it. */
  lemma RecordedCanMeet(c: Config, s: State, item: Item, src: nat, tag: nat)
    requires |s.sends| == |s.status| && ServerWaits(s.sends, s.status, item, src, tag)
    requires item.packet in s.packets && s.packets[item.packet] == Waiting(item.msg, InRoom(c, Payload(c, s.sends[item.msg]))) && !s.status[item.msg].issued
    ensures CanMeet(c, Recorded(s, src, tag), |s.reqs|, item.packet, item.msg, BytesIn(s.packets, item.packet))
  {
  }

  lemma RecvMeets(c: Config, s: State, src: nat, tag: nat)
    requires Inv(c, s) && Address(src, tag) && Waiters(c, s.posts, src, tag, M.Server) != []
    ensures var q := Waiters(c, s.posts, src, tag, M.Server);
      && ServerWaits(s.sends, s.status, q[0], src, tag)
      && CanMeet(c, Recorded(s, src, tag), |s.reqs|, q[0].packet, q[0].msg, BytesIn(s.packets, q[0].packet))
  {
    RecvFinds(c, s, src, tag);
    var item := Waiters(c, s.posts, src, tag, M.Server)[0];
    ShelvedMessage(c, s, item, src, tag);
    RecordedCanMeet(c, s, item, src, tag);
  }

  lemma RecvKeepsCore(c: Config, s: State, src: nat, tag: nat)
    requires Inv(c, s) && Address(src, tag)
    ensures Core(c, StepRecv(c, s, src, tag))
  {
    RecordedCore(c, s, src, tag);
    RecvFinds(c, s, src, tag);
    var q := Waiters(c, s.posts, src, tag, M.Server);
    if q != [] {
      RecvMeets(c, s, src, tag);
      MeetKeepsCore(c, Recorded(s, src, tag), |s.reqs|, q[0].packet, q[0].msg, BytesIn(s.packets, q[0].packet));
    }
  }

  lemma RecordedClients(s: State, q: seq<Item>, src: nat, tag: nat, src': nat, tag': nat)
    requires ClientsWait(s.recvs, s.reqs, q, src', tag')
    ensures var t := Recorded(s, src, tag);
      ClientsWait(t.recvs, t.reqs, q, src', tag') && forall j :: 0 <= j < |q| ==> q[j] != ReqItem(|s.reqs|)
  {
    var t := Recorded(s, src, tag);
    forall j | 0 <= j < |q| ensures ClientWaits(t.recvs, t.reqs, q[j], src', tag') && q[j] != ReqItem(|s.reqs|) {
      assert ClientWaits(s.recvs, s.reqs, q[j], src', tag');
    }
  }

  lemma RecvItemsSnoc(recvs: seq<Recv>, r: Recv, src: nat, tag: nat)
    ensures RecvItems(recvs + [r], src, tag) ==
      RecvItems(recvs, src, tag) + if r == Recv(src, tag) then [ReqItem(|recvs|)] else []
  {
    assert (recvs + [r])[..|recvs|] == recvs;
  }

  lemma RecordedPosts(c: Config, s: State, src: nat, tag: nat, src': nat, tag': nat)
    requires Address(src, tag) && Address(src', tag')
    ensures var posts, k := Recorded(s, src, tag).posts, Key(src', tag');
      && M.Posted(posts, k, M.Server) == M.Posted(s.posts, k, M.Server)
      && M.Posted(posts, k, M.Client) ==
           M.Posted(s.posts, k, M.Client) + if src == src' && tag == tag' then [ReqItem(|s.reqs|)] else []
  {
    KeysDiffer(src, tag, src', tag');
    PostEffect(c, s.posts, RecvPost(s, src, tag), Key(src', tag'));
    assert M.Posted(s.posts, Key(src', tag'), M.Server) + [] == M.Posted(s.posts, Key(src', tag'), M.Server);
  }

  lemma RecordedOrder(c: Config, s: State, src: nat, tag: nat, src': nat, tag': nat)
    requires |s.recvs| == |s.reqs| && InOrder(s, src', tag') && Address(src, tag) && Address(src', tag')
    ensures InOrder(Recorded(s, src, tag), src', tag')
  {
    RecordedPosts(c, s, src, tag, src', tag');
    RecvItemsSnoc(s.recvs, Recv(src, tag), src', tag');
  }

  /** What a recorded receive does to the queues and pairs of a key. */
  lemma RecordedQueues(c: Config, s: State, src: nat, tag: nat, src': nat, tag': nat)
    requires Address(src, tag) && Address(src', tag')
    ensures var q, u := Waiters(c, s.posts, src, tag, M.Server), Recorded(s, src, tag);
      var same := src == src' && tag == tag';
      && Waiters(c, u.posts, src', tag', M.Client) ==
           Waiters(c, s.posts, src', tag', M.Client) + (if same && q == [] then [ReqItem(|s.reqs|)] else [])
      && Waiters(c, u.posts, src', tag', M.Server) == (if same && q != [] then q[1..] else Waiters(c, s.posts, src', tag', M.Server))
      && Pairs(c, u.posts, src', tag') ==
           Pairs(c, s.posts, src', tag') + (if same && q != [] then [(ReqItem(|s.reqs|), q[0])] else [])
  {
    KeysDiffer(src, tag, src', tag');
    PostEffect(c, s.posts, RecvPost(s, src, tag), Key(src', tag'));
    var q := Waiters(c, s.posts, src', tag', M.Client);
    assert q + [] == q;
  }

  lemma AppendClient(recvs: seq<Recv>, reqs: seq<Req>, q: seq<Item>, src: nat, tag: nat, item: Item)
    requires ClientsWait(recvs, reqs, q, src, tag) && ClientWaits(recvs, reqs, item, src, tag)
    requires forall j :: 0 <= j < |q| ==> q[j] != item
    ensures ClientsWait(recvs, reqs, q + [item], src, tag)
  {
  }

  lemma RecvWaitsKey(c: Config, s: State, src: nat, tag: nat, src': nat, tag': nat)
    requires |s.recvs| == |s.reqs| && WaitingOk(c, s, src', tag') && Address(src, tag) && Address(src', tag')
    requires Waiters(c, s.posts, src, tag, M.Server) == []
    ensures WaitingOk(c, Recorded(s, src, tag), src', tag')
  {
    RecordedQueues(c, s, src, tag, src', tag');
    var q, u := Waiters(c, s.posts, src', tag', M.Client), Recorded(s, src, tag);
    RecordedClients(s, q, src, tag, src', tag');
    if src == src' && tag == tag' { AppendClient(u.recvs, u.reqs, q, src, tag, ReqItem(|s.reqs|)); }
    PairsFrame(s.reqs, u.reqs, Pairs(c, s.posts, src', tag'));
  }

  lemma RecvMeetsKey(c: Config, s: State, src: nat, tag: nat, src': nat, tag': nat)
    requires |s.recvs| == |s.reqs| && WaitingOk(c, s, src', tag') && WaitingOk(c, s, src, tag)
    requires Address(src, tag) && Address(src', tag') && Waiters(c, s.posts, src, tag, M.Server) != []
    ensures var item := Waiters(c, s.posts, src, tag, M.Server)[0];
      && ServerWaits(s.sends, s.status, item, src, tag)
      && WaitingOk(c, Meet(c, Recorded(s, src, tag), |s.reqs|, item.packet, item.msg, BytesIn(s.packets, item.packet)), src', tag')
  {
    var qs := Waiters(c, s.posts, src, tag, M.Server);
    var item, u := qs[0], Recorded(s, src, tag);
    assert ServerWaits(s.sends, s.status, item, src, tag);
    var t := Meet(c, u, |s.reqs|, item.packet, item.msg, BytesIn(s.packets, item.packet));
    MeetFrame(c, u, |s.reqs|, item.packet, item.msg, BytesIn(s.packets, item.packet));
    RecordedQueues(c, s, src, tag, src', tag');
    RecvMeetsClients(c, s, src, tag, src', tag', t.reqs);
    RecvMeetsServers(c, s, src, tag, src', tag', t.status);
    RecvMeetsPairs(c, s, item, src', tag', t.reqs);
  }

  lemma RecvMeetsPairs(c: Config, s: State, item: Item, src': nat, tag': nat, reqs': seq<Req>)
    requires WaitingOk(c, s, src', tag') && item.PktItem? && |reqs'| == |s.reqs| + 1
    requires reqs'[|s.reqs|].match_ == Some(item.msg) && forall k :: 0 <= k < |s.reqs| ==> reqs'[k] == s.reqs[k]
    ensures var pairs := Pairs(c, s.posts, src', tag');
      PairsOk(reqs', pairs) && PairsOk(reqs', pairs + [(ReqItem(|s.reqs|), item)])
  {
    PairsFrame(s.reqs, reqs', Pairs(c, s.posts, src', tag'));
  }

  lemma RecvMeetsClients(c: Config, s: State, src: nat, tag: nat, src': nat, tag': nat, reqs': seq<Req>)
    requires WaitingOk(c, s, src', tag') && |s.recvs| == |s.reqs| && |reqs'| == |s.reqs| + 1
    requires forall k :: 0 <= k < |s.reqs| ==> reqs'[k] == s.reqs[k]
    ensures ClientsWait(Recorded(s, src, tag).recvs, reqs', Waiters(c, s.posts, src', tag', M.Client), src', tag')
  {
    var q, u := Waiters(c, s.posts, src', tag', M.Client), Recorded(s, src, tag);
    RecordedClients(s, q, src, tag, src', tag');
    ClientsFrame(u.recvs, u.reqs, reqs', q, src', tag', |s.reqs|);
  }

  lemma RecvMeetsServers(c: Config, s: State, src: nat, tag: nat, src': nat, tag': nat, status': seq<Status>)
    requires WaitingOk(c, s, src', tag') && WaitingOk(c, s, src, tag) && Waiters(c, s.posts, src, tag, M.Server) != []
    requires var m := MsgOf(Waiters(c, s.posts, src, tag, M.Server)[0]);
      |status'| == |s.status| && forall n :: 0 <= n < |s.status| && n != m ==> status'[n] == s.status[n]
    ensures var qs := Waiters(c, s.posts, src, tag, M.Server);
      ServersWait(s.sends, status', if src == src' && tag == tag' then qs[1..] else Waiters(c, s.posts, src', tag', M.Server),
                  src', tag')
  {
    var qs := Waiters(c, s.posts, src, tag, M.Server);
    var m := MsgOf(qs[0]);
    assert ServerWaits(s.sends, s.status, qs[0], src, tag);
    if src == src' && tag == tag' {
      TailMessages(s.sends, s.status, qs, src, tag);
      ServersFrame(s.sends, s.status, status', qs[1..], src, tag, m);
    } else {
      OtherMessages(s.sends, s.status, Waiters(c, s.posts, src', tag', M.Server), src', tag', m);
      ServersFrame(s.sends, s.status, status', Waiters(c, s.posts, src', tag', M.Server), src', tag', m);
    }
  }

  lemma RecvKeepsWire(c: Config, s: State, src: nat, tag: nat, src': nat)
    requires Inv(c, s) && Address(src, tag)
    ensures var t := StepRecv(c, s, src, tag); WireOk(c, t.sends, t.status, WireOf(t, src'), src')
  {
    RecvFinds(c, s, src, tag);
    var q, u := Waiters(c, s.posts, src, tag, M.Server), Recorded(s, src, tag);
    var wire := WireOf(s, src');
    assert WireOk(c, s.sends, s.status, wire, src');
    if q != [] {
      MeetFrame(c, u, |s.reqs|, q[0].packet, q[0].msg, BytesIn(s.packets, q[0].packet));
      forall j | 0 <= j < |wire| ensures wire[j].msg != q[0].msg { assert OnWire(c, s.sends, s.status, wire[j], src'); }
      WireFrame(c, s.sends, s.status, StepRecv(c, s, src, tag).status, wire, src', q[0].msg);
    }
  }

  lemma RecvKeepsKey(c: Config, s: State, src: nat, tag: nat, src': nat, tag': nat)
    requires Inv(c, s) && Address(src, tag) && Address(src', tag')
    ensures InOrder(StepRecv(c, s, src, tag), src', tag') && WaitingOk(c, StepRecv(c, s, src, tag), src', tag')
  {
    RecvFinds(c, s, src, tag);
    assert InOrder(s, src', tag') && WaitingOk(c, s, src', tag') && WaitingOk(c, s, src, tag);
    RecordedOrder(c, s, src, tag, src', tag');
    var q := Waiters(c, s.posts, src, tag, M.Server);
    if q == [] {
      RecvWaitsKey(c, s, src, tag, src', tag');
    } else {
      MeetFrame(c, Recorded(s, src, tag), |s.reqs|, q[0].packet, q[0].msg, BytesIn(s.packets, q[0].packet));
      RecvMeetsKey(c, s, src, tag, src', tag');
    }
  }

  lemma RecvKeepsInv(c: Config, s: State, src: nat, tag: nat)
    requires Inv(c, s) && Address(src, tag)
    ensures Inv(c, StepRecv(c, s, src, tag))
  {
    var t := StepRecv(c, s, src, tag);
    RecvKeepsCore(c, s, src, tag);
    forall src': nat, tag': nat | Address(src', tag') ensures InOrder(t, src', tag') && WaitingOk(c, t, src', tag') {
      RecvKeepsKey(c, s, src, tag, src', tag');
    }
    forall src': nat ensures WireOk(c, t.sends, t.status, WireOf(t, src'), src') { RecvKeepsWire(c, s, src, tag, src'); }
    RecvKeepsSizes(c, s, src, tag);
  }

  lemma UsableSnoc(posts: seq<M.Post<Item>>, p: M.Post<Item>)
    requires M.UsableKeys(posts) && M.Usable(p.key)
    ensures M.UsableKeys(posts + [p])
  {
  }

  lemma RecordedSizes(s: State, src: nat, tag: nat)
    requires Sizes(s) && Address(src, tag)
    ensures Sizes(Recorded(s, src, tag))
  {
    KeysDiffer(src, tag, src, tag);
    UsableSnoc(s.posts, RecvPost(s, src, tag));
  }

  lemma MeetKeepsSizes(c: Config, s: State, r: nat, p: nat, m: nat, b: Bytes)
    requires Sizes(s) && m < |s.sends| && r < |s.reqs|
    ensures Sizes(Meet(c, s, r, p, m, b))
  {
  }

  lemma RecvKeepsSizes(c: Config, s: State, src: nat, tag: nat)
    requires Inv(c, s) && Address(src, tag)
    ensures Sizes(StepRecv(c, s, src, tag))
  {
    RecvFinds(c, s, src, tag);
    RecordedSizes(s, src, tag);
    var q := Waiters(c, s.posts, src, tag, M.Server);
    if q != [] { MeetKeepsSizes(c, Recorded(s, src, tag), |s.reqs|, q[0].packet, q[0].msg, BytesIn(s.packets, q[0].packet)); }
  }

  // ----- Arriving -----

  /** The state once the arrival of the first packet from src is on record and before it meets anybody. */
  function Landed(s: State, src: nat, p: nat): State
    requires WireOf(s, src) != []
  {
    s.(wires := s.wires[src := WireOf(s, src)[1..]], posts := s.posts + [ArrivePost(s, src, p)])
  }

  /** A landed packet that nobody waits for goes into the table. */
  function Shelved(c: Config, s: State, src: nat, p: nat): State
    requires WireOf(s, src) != [] && WireOf(s, src)[0].msg < |s.status|
  {
    var m := WireOf(s, src)[0].msg;
    var t := Landed(s, src, p);
    t.(status := t.status[m := t.status[m].(stage := InTable(p))], packets := t.packets[p := Waiting(m, InRoom(c, WireOf(s, src)[0].payload))])
  }

  lemma ArriveLooksUp(c: Config, s: State, src: nat, p: nat)
    requires WireOf(s, src) != [] && Address(src, WireOf(s, src)[0].tag)
    ensures var q := Waiters(c, s.posts, src, WireOf(s, src)[0].tag, M.Client);
      var out := Lookup(c, s, ArrivePost(s, src, p));
      out.inserted == (q == []) && (q != [] ==> out.value == q[0])
  {
    var w := WireOf(s, src)[0];
    KeysDiffer(src, w.tag, src, w.tag);
    PostEffect(c, s.posts, ArrivePost(s, src, p), Key(src, w.tag));
  }

  lemma ArriveFinds(c: Config, s: State, src: nat, p: nat)
    requires Inv(c, s) && Enabled(c, s, Arrive(src, p))
    ensures var w := WireOf(s, src)[0];
      && OnWire(c, s.sends, s.status, w, src)
      && var q := Waiters(c, s.posts, src, w.tag, M.Client);
         && (q != [] ==> ClientWaits(s.recvs, s.reqs, q[0], src, w.tag))
         && StepArrive(c, s, src, p) ==
              if q == [] then Shelved(c, s, src, p) else Meet(c, Landed(s, src, p), q[0].req, p, w.msg, InRoom(c, w.payload))
  {
    assert WireOk(c, s.sends, s.status, WireOf(s, src), src);
    ArriveLooksUp(c, s, src, p);
    assert WaitingOk(c, s, src, WireOf(s, src)[0].tag);
  }

  lemma ShelvedStatuses(c: Config, s: State, src: nat, p: nat)
    requires Core(c, s) && Enabled(c, s, Arrive(src, p)) && OnWire(c, s.sends, s.status, WireOf(s, src)[0], src)
    ensures var t := Shelved(c, s, src, p); Statuses(c, t.sends, t.status, t.packets, t.longs)
  {
    var t := Shelved(c, s, src, p);
    forall m | 0 <= m < |t.status| ensures StatusOk(c, t.sends[m], t.status[m], m, t.packets, t.longs) {
      assert StatusOk(c, s.sends[m], s.status[m], m, s.packets, s.longs);
    }
  }

  lemma ShelvedPacket(c: Config, s: State, src: nat, p: nat, q: nat)
    requires Core(c, s) && Enabled(c, s, Arrive(src, p)) && OnWire(c, s.sends, s.status, WireOf(s, src)[0], src)
    requires q in Shelved(c, s, src, p).packets
    ensures var t := Shelved(c, s, src, p);
      PacketOk(t.packets[q], q, t.sends, t.status, t.reqs, t.rtrs, t.rdmas, t.regs)
  {
    if q == p { assert p !in s.rtrs.Keys && p !in s.rdmas.Keys; }
    else { assert PacketOk(s.packets[q], q, s.sends, s.status, s.reqs, s.rtrs, s.rdmas, s.regs); }
  }

  lemma ShelvedReqs(c: Config, s: State, src: nat, p: nat)
    requires Core(c, s) && Enabled(c, s, Arrive(src, p)) && OnWire(c, s.sends, s.status, WireOf(s, src)[0], src)
    ensures Reqs(c, Shelved(c, s, src, p))
  {
    var t := Shelved(c, s, src, p);
    forall r | 0 <= r < |t.reqs| ensures ReqOk(c, t.reqs[r], r, t.sends, t.status, t.packets) {
      assert ReqOk(c, s.reqs[r], r, s.sends, s.status, s.packets);
    }
  }

  lemma ShelvedRegs(c: Config, s: State, src: nat, p: nat)
    requires Regs(s.regs, s.reqs, s.packets) && p !in s.packets
    requires WireOf(s, src) != [] && WireOf(s, src)[0].msg < |s.status|
    ensures var t := Shelved(c, s, src, p); Regs(t.regs, t.reqs, t.packets)
  {
    var t := Shelved(c, s, src, p);
    forall x | 0 <= x < |t.regs| ensures RegOk(t.regs[x], x, t.reqs, t.packets) {
      assert RegOk(s.regs[x], x, s.reqs, s.packets);
    }
  }

  lemma ShelvedKeepsCore(c: Config, s: State, src: nat, p: nat)
    requires Core(c, s) && Enabled(c, s, Arrive(src, p)) && OnWire(c, s.sends, s.status, WireOf(s, src)[0], src)
    ensures Core(c, Shelved(c, s, src, p))
  {
    var t := Shelved(c, s, src, p);
    ShelvedStatuses(c, s, src, p);
    ShelvedReqs(c, s, src, p);
    forall q | q in t.packets
      ensures PacketOk(t.packets[q], q, t.sends, t.status, t.reqs, t.rtrs, t.rdmas, t.regs)
    {
      ShelvedPacket(c, s, src, p, q);
    }
    ShelvedRegs(c, s, src, p);
  }

  lemma ArriveKeepsCore(c: Config, s: State, src: nat, p: nat)
    requires Inv(c, s) && Enabled(c, s, Arrive(src, p))
    ensures Core(c, StepArrive(c, s, src, p))
  {
    ArriveFinds(c, s, src, p);
    var w := WireOf(s, src)[0];
    var q := Waiters(c, s.posts, src, w.tag, M.Client);
    if q == [] {
      ShelvedKeepsCore(c, s, src, p);
    } else {
      assert StatusOk(c, s.sends[w.msg], s.status[w.msg], w.msg, s.packets, s.longs);
      MeetKeepsCore(c, Landed(s, src, p), q[0].req, p, w.msg, InRoom(c, w.payload));
    }
  }

  lemma LandedPosts(c: Config, s: State, src: nat, p: nat, src': nat, tag': nat)
    requires WireOf(s, src) != [] && Address(src, WireOf(s, src)[0].tag) && Address(src', tag')
    ensures var w, posts, k := WireOf(s, src)[0], Landed(s, src, p).posts, Key(src', tag');
      && M.Posted(posts, k, M.Client) == M.Posted(s.posts, k, M.Client)
      && M.Posted(posts, k, M.Server) ==
           M.Posted(s.posts, k, M.Server) + if src == src' && w.tag == tag' then [PktItem(p, w.msg)] else []
  {
    var w := WireOf(s, src)[0];
    KeysDiffer(src, w.tag, src', tag');
    PostEffect(c, s.posts, ArrivePost(s, src, p), Key(src', tag'));
    assert M.Posted(s.posts, Key(src', tag'), M.Client) + [] == M.Posted(s.posts, Key(src', tag'), M.Client);
  }

  lemma LandedOrder(c: Config, s: State, src: nat, p: nat, src': nat, tag': nat)
    requires WireOf(s, src) != [] && Address(src, WireOf(s, src)[0].tag) && Address(src', tag') && InOrder(s, src', tag')
    ensures InOrder(Landed(s, src, p), src', tag')
  {
    var w := WireOf(s, src)[0];
    LandedPosts(c, s, src, p, src', tag');
    var servers := M.Posted(s.posts, Key(src', tag'), M.Server);
    assert servers + [] == servers;
    if src == src' && w.tag == tag' {
      assert (servers + [PktItem(p, w.msg)])[..|servers|] == servers;
      assert MsgsOf(servers) + ([w.msg] + Tagged(WireOf(s, src)[1..], tag')) ==
             MsgsOf(servers) + [w.msg] + Tagged(WireOf(s, src)[1..], tag');
    } else if src == src' {
      assert [] + Tagged(WireOf(s, src)[1..], tag') == Tagged(WireOf(s, src)[1..], tag');
    }
  }

  lemma LandedQueues(c: Config, s: State, src: nat, p: nat, src': nat, tag': nat)
    requires WireOf(s, src) != [] && Address(src, WireOf(s, src)[0].tag) && Address(src', tag')
    ensures var w, u := WireOf(s, src)[0], Landed(s, src, p);
      var q, same := Waiters(c, s.posts, src, w.tag, M.Client), src == src' && w.tag == tag';
      && Waiters(c, u.posts, src', tag', M.Server) ==
           Waiters(c, s.posts, src', tag', M.Server) + (if same && q == [] then [PktItem(p, w.msg)] else [])
      && Waiters(c, u.posts, src', tag', M.Client) == (if same && q != [] then q[1..] else Waiters(c, s.posts, src', tag', M.Client))
      && Pairs(c, u.posts, src', tag') ==
           Pairs(c, s.posts, src', tag') + (if same && q != [] then [(q[0], PktItem(p, w.msg))] else [])
  {
    var w := WireOf(s, src)[0];
    KeysDiffer(src, w.tag, src', tag');
    PostEffect(c, s.posts, ArrivePost(s, src, p), Key(src', tag'));
    var q := Waiters(c, s.posts, src', tag', M.Server);
    assert q + [] == q;
  }

  /** Nobody in the table waits for a message that is still on the wire. */
  lemma NotInTable(sends: seq<Send>, status: seq<Status>, q: seq<Item>, src: nat, tag: nat, m: nat)
    requires ServersWait(sends, status, q, src, tag) && m < |status| && status[m].stage == Wire
    ensures forall j :: 0 <= j < |q| ==> MsgOf(q[j]) != m
  {
    forall j | 0 <= j < |q| ensures MsgOf(q[j]) != m { assert ServerWaits(sends, status, q[j], src, tag); }
  }

  lemma AppendServer(sends: seq<Send>, status: seq<Status>, q: seq<Item>, src: nat, tag: nat, item: Item)
    requires ServersWait(sends, status, q, src, tag) && ServerWaits(sends, status, item, src, tag)
    requires forall j :: 0 <= j < |q| ==> MsgOf(q[j]) != MsgOf(item)
    ensures ServersWait(sends, status, q + [item], src, tag)
  {
  }

  lemma ShelvedServers(c: Config, s: State, src: nat, p: nat, src': nat, tag': nat)
    requires WireOf(s, src) != [] && OnWire(c, s.sends, s.status, WireOf(s, src)[0], src)
    requires WaitingOk(c, s, src', tag')
    ensures var w, t, q := WireOf(s, src)[0], Shelved(c, s, src, p), Waiters(c, s.posts, src', tag', M.Server);
      && ServersWait(t.sends, t.status, q, src', tag')
      && (src == src' && w.tag == tag' ==> ServersWait(t.sends, t.status, q + [PktItem(p, w.msg)], src', tag'))
  {
    var w, t := WireOf(s, src)[0], Shelved(c, s, src, p);
    var q := Waiters(c, s.posts, src', tag', M.Server);
    NotInTable(s.sends, s.status, q, src', tag', w.msg);
    ServersFrame(s.sends, s.status, t.status, q, src', tag', w.msg);
    if src == src' && w.tag == tag' {
      AppendServer(t.sends, t.status, q, src', tag', PktItem(p, w.msg));
    }
  }

  lemma ShelvedKey(c: Config, s: State, src: nat, p: nat, src': nat, tag': nat)
    requires WireOf(s, src) != [] && OnWire(c, s.sends, s.status, WireOf(s, src)[0], src) && Address(src', tag')
    requires WaitingOk(c, s, src', tag') && Waiters(c, s.posts, src, WireOf(s, src)[0].tag, M.Client) == []
    ensures WaitingOk(c, Shelved(c, s, src, p), src', tag')
  {
    LandedQueues(c, s, src, p, src', tag');
    ShelvedServers(c, s, src, p, src', tag');
  }

  lemma ArriveMeetsKey(c: Config, s: State, src: nat, p: nat, src': nat, tag': nat)
    requires WireOf(s, src) != [] && OnWire(c, s.sends, s.status, WireOf(s, src)[0], src) && Address(src', tag')
    requires WaitingOk(c, s, src', tag') && WaitingOk(c, s, src, WireOf(s, src)[0].tag)
    requires Waiters(c, s.posts, src, WireOf(s, src)[0].tag, M.Client) != []
    ensures var w := WireOf(s, src)[0];
      var item := Waiters(c, s.posts, src, w.tag, M.Client)[0];
      && ClientWaits(s.recvs, s.reqs, item, src, w.tag)
      && WaitingOk(c, Meet(c, Landed(s, src, p), item.req, p, w.msg, InRoom(c, w.payload)), src', tag')
  {
    var w, u := WireOf(s, src)[0], Landed(s, src, p);
    var item := Waiters(c, s.posts, src, w.tag, M.Client)[0];
    assert ClientWaits(s.recvs, s.reqs, item, src, w.tag);
    var t := Meet(c, u, item.req, p, w.msg, InRoom(c, w.payload));
    MeetFrame(c, u, item.req, p, w.msg, InRoom(c, w.payload));
    LandedQueues(c, s, src, p, src', tag');
    ArriveMeetsServers(c, s, src', tag', w.msg, t.status);
    ArriveMeetsClients(c, s, src, w.tag, src', tag', t.reqs);
    ArriveMeetsPairs(c, s, src, w, p, src', tag', t.reqs);
  }

  lemma ArriveMeetsServers(c: Config, s: State, src': nat, tag': nat, m: nat, status': seq<Status>)
    requires WaitingOk(c, s, src', tag') && m < |s.status| == |status'| && s.status[m].stage == Wire
    requires forall n :: 0 <= n < |s.status| && n != m ==> status'[n] == s.status[n]
    ensures ServersWait(s.sends, status', Waiters(c, s.posts, src', tag', M.Server), src', tag')
  {
    var q := Waiters(c, s.posts, src', tag', M.Server);
    NotInTable(s.sends, s.status, q, src', tag', m);
    ServersFrame(s.sends, s.status, status', q, src', tag', m);
  }

  lemma ArriveMeetsPairs(c: Config, s: State, src: nat, w: WirePacket, p: nat, src': nat, tag': nat, reqs': seq<Req>)
    requires WaitingOk(c, s, src', tag') && Waiters(c, s.posts, src, w.tag, M.Client) != []
    requires var item := Waiters(c, s.posts, src, w.tag, M.Client)[0];
      && ClientWaits(s.recvs, s.reqs, item, src, w.tag) && |reqs'| == |s.reqs|
      && reqs'[item.req].match_ == Some(w.msg) && forall k :: 0 <= k < |s.reqs| && k != item.req ==> reqs'[k] == s.reqs[k]
    ensures var pairs, item := Pairs(c, s.posts, src', tag'), Waiters(c, s.posts, src, w.tag, M.Client)[0];
      PairsOk(reqs', pairs) && PairsOk(reqs', pairs + [(item, PktItem(p, w.msg))])
  {
    PairsFrame(s.reqs, reqs', Pairs(c, s.posts, src', tag'));
  }

  lemma ArriveMeetsClients(c: Config, s: State, src: nat, tag: nat, src': nat, tag': nat, reqs': seq<Req>)
    requires WaitingOk(c, s, src', tag') && WaitingOk(c, s, src, tag) && Waiters(c, s.posts, src, tag, M.Client) != []
    requires var item := Waiters(c, s.posts, src, tag, M.Client)[0];
      item.ReqItem? && |reqs'| == |s.reqs| && forall k :: 0 <= k < |s.reqs| && k != item.req ==> reqs'[k] == s.reqs[k]
    ensures var qc := Waiters(c, s.posts, src, tag, M.Client);
      ClientsWait(s.recvs, reqs', if src == src' && tag == tag' then qc[1..] else Waiters(c, s.posts, src', tag', M.Client),
                  src', tag')
  {
    var qc := Waiters(c, s.posts, src, tag, M.Client);
    assert ClientWaits(s.recvs, s.reqs, qc[0], src, tag);
    if src == src' && tag == tag' {
      TailClients(s.recvs, s.reqs, qc, src, tag);
      ClientsFrame(s.recvs, s.reqs, reqs', qc[1..], src, tag, qc[0].req);
    } else {
      var q := Waiters(c, s.posts, src', tag', M.Client);
      forall j | 0 <= j < |q| ensures q[j] != ReqItem(qc[0].req) { assert ClientWaits(s.recvs, s.reqs, q[j], src', tag'); }
      ClientsFrame(s.recvs, s.reqs, reqs', q, src', tag', qc[0].req);
    }
  }

  /** What an arrival leaves, given the queue of receives it looks at. */
  function ArriveResult(c: Config, s: State, src: nat, p: nat, q: seq<Item>): State
    requires WireOf(s, src) != [] && WireOf(s, src)[0].msg < |s.sends| == |s.status|
    requires q != [] ==> q[0].ReqItem? && q[0].req < |s.reqs|
  {
    if q == [] then Shelved(c, s, src, p) else Meet(c, Landed(s, src, p), q[0].req, p, WireOf(s, src)[0].msg, InRoom(c, WireOf(s, src)[0].payload))
  }

  lemma MeetKeepsOrder(c: Config, s: State, r: nat, p: nat, m: nat, b: Bytes, src: nat, tag: nat)
    requires m < |s.sends| == |s.status| && r < |s.reqs| && InOrder(s, src, tag)
    ensures InOrder(Meet(c, s, r, p, m, b), src, tag)
  {
  }

  lemma ShelvedOrder(c: Config, s: State, src: nat, p: nat, src': nat, tag': nat)
    requires WireOf(s, src) != [] && WireOf(s, src)[0].msg < |s.status| && InOrder(Landed(s, src, p), src', tag')
    ensures InOrder(Shelved(c, s, src, p), src', tag')
  {
  }

  lemma ArriveResultWaiting(c: Config, s: State, src: nat, p: nat, src': nat, tag': nat)
    requires WireOf(s, src) != [] && OnWire(c, s.sends, s.status, WireOf(s, src)[0], src) && Address(src', tag')
    requires WaitingOk(c, s, src', tag') && WaitingOk(c, s, src, WireOf(s, src)[0].tag)
    ensures var q := Waiters(c, s.posts, src, WireOf(s, src)[0].tag, M.Client);
      && (q != [] ==> ClientWaits(s.recvs, s.reqs, q[0], src, WireOf(s, src)[0].tag))
      && WaitingOk(c, ArriveResult(c, s, src, p, q), src', tag')
  {
    var q := Waiters(c, s.posts, src, WireOf(s, src)[0].tag, M.Client);
    if q == [] { ShelvedKey(c, s, src, p, src', tag'); } else { ArriveMeetsKey(c, s, src, p, src', tag'); }
  }

  lemma ArriveResultOrder(c: Config, s: State, src: nat, p: nat, src': nat, tag': nat, q: seq<Item>)
    requires WireOf(s, src) != [] && OnWire(c, s.sends, s.status, WireOf(s, src)[0], src) && Address(src', tag')
    requires InOrder(s, src', tag') && (q != [] ==> q[0].ReqItem? && q[0].req < |s.reqs|)
    ensures InOrder(ArriveResult(c, s, src, p, q), src', tag')
  {
    LandedOrder(c, s, src, p, src', tag');
    if q == [] { ShelvedOrder(c, s, src, p, src', tag'); }
    else { MeetKeepsOrder(c, Landed(s, src, p), q[0].req, p, WireOf(s, src)[0].msg, InRoom(c, WireOf(s, src)[0].payload), src', tag'); }
  }

  lemma ArriveKeepsKey(c: Config, s: State, src: nat, p: nat, src': nat, tag': nat)
    requires Inv(c, s) && Enabled(c, s, Arrive(src, p)) && Address(src', tag')
    ensures InOrder(StepArrive(c, s, src, p), src', tag') && WaitingOk(c, StepArrive(c, s, src, p), src', tag')
  {
    ArriveFinds(c, s, src, p);
    assert InOrder(s, src', tag') && WaitingOk(c, s, src', tag') && WaitingOk(c, s, src, WireOf(s, src)[0].tag);
    ArriveResultWaiting(c, s, src, p, src', tag');
    ArriveResultOrder(c, s, src, p, src', tag', Waiters(c, s.posts, src, WireOf(s, src)[0].tag, M.Client));
  }

  lemma ArriveWire(c: Config, s: State, src: nat, src': nat, status': seq<Status>, wire': seq<WirePacket>)
    requires Wires(c, s) && WireOf(s, src) != [] && |status'| == |s.status|
    requires var m := WireOf(s, src)[0].msg; forall n :: 0 <= n < |s.status| && n != m ==> status'[n] == s.status[n]
    requires wire' == if src' == src then WireOf(s, src)[1..] else WireOf(s, src')
    ensures WireOk(c, s.sends, status', wire', src')
  {
    var w, wire := WireOf(s, src)[0], WireOf(s, src');
    assert WireOk(c, s.sends, s.status, wire, src') && WireOk(c, s.sends, s.status, WireOf(s, src), src);
    assert OnWire(c, s.sends, s.status, w, src);
    if src' == src {
      TailWire(c, s.sends, s.status, wire, src);
    } else {
      forall j | 0 <= j < |wire| ensures wire[j].msg != w.msg { assert OnWire(c, s.sends, s.status, wire[j], src'); }
    }
    WireFrame(c, s.sends, s.status, status', wire', src', w.msg);
  }

  lemma ArriveResultFrame(c: Config, s: State, src: nat, p: nat, q: seq<Item>, src': nat)
    requires WireOf(s, src) != [] && WireOf(s, src)[0].msg < |s.sends| == |s.status|
    requires q != [] ==> q[0].ReqItem? && q[0].req < |s.reqs|
    ensures var (t, m) := (ArriveResult(c, s, src, p, q), WireOf(s, src)[0].msg);
      && t.sends == s.sends && |t.status| == |s.status|
      && (forall n :: 0 <= n < |s.status| && n != m ==> t.status[n] == s.status[n])
      && WireOf(t, src') == if src' == src then WireOf(s, src)[1..] else WireOf(s, src')
  {
    if q != [] { MeetFrame(c, Landed(s, src, p), q[0].req, p, WireOf(s, src)[0].msg, InRoom(c, WireOf(s, src)[0].payload)); }
  }

  lemma ArriveKeepsWire(c: Config, s: State, src: nat, p: nat, src': nat)
    requires Inv(c, s) && Enabled(c, s, Arrive(src, p))
    ensures var t := StepArrive(c, s, src, p); WireOk(c, t.sends, t.status, WireOf(t, src'), src')
  {
    ArriveFinds(c, s, src, p);
    var q := Waiters(c, s.posts, src, WireOf(s, src)[0].tag, M.Client);
    ArriveResultFrame(c, s, src, p, q, src');
    var t := StepArrive(c, s, src, p);
    ArriveWire(c, s, src, src', t.status, WireOf(t, src'));
  }

  lemma TailWire(c: Config, sends: seq<Send>, status: seq<Status>, wire: seq<WirePacket>, src: nat)
    requires WireOk(c, sends, status, wire, src) && wire != []
    ensures WireOk(c, sends, status, wire[1..], src) && forall j :: 0 <= j < |wire[1..]| ==> wire[1..][j].msg != wire[0].msg
  {
    forall j | 0 <= j < |wire[1..]| ensures OnWire(c, sends, status, wire[1..][j], src) {
      assert OnWire(c, sends, status, wire[j + 1], src);
    }
  }

  lemma LandedSizes(c: Config, s: State, src: nat, p: nat)
    requires Sizes(s) && WireOf(s, src) != [] && Address(src, WireOf(s, src)[0].tag) && WireOf(s, src)[0].msg < |s.status|
    ensures Sizes(Landed(s, src, p)) && Sizes(Shelved(c, s, src, p))
  {
    var w := WireOf(s, src)[0];
    KeysDiffer(src, w.tag, src, w.tag);
    UsableSnoc(s.posts, ArrivePost(s, src, p));
  }

  lemma ArriveKeepsSizes(c: Config, s: State, src: nat, p: nat)
    requires Inv(c, s) && Enabled(c, s, Arrive(src, p))
    ensures Sizes(StepArrive(c, s, src, p))
  {
    ArriveFinds(c, s, src, p);
    LandedSizes(c, s, src, p);
    var w := WireOf(s, src)[0];
    var q := Waiters(c, s.posts, src, w.tag, M.Client);
    if q != [] { MeetKeepsSizes(c, Landed(s, src, p), q[0].req, p, w.msg, InRoom(c, w.payload)); }
  }

  lemma ArriveKeepsInv(c: Config, s: State, src: nat, p: nat)
    requires Inv(c, s) && Enabled(c, s, Arrive(src, p))
    ensures Inv(c, StepArrive(c, s, src, p))
  {
    var t := StepArrive(c, s, src, p);
    ArriveKeepsCore(c, s, src, p);
    ArriveKeepsSizes(c, s, src, p);
    forall src': nat, tag': nat | Address(src', tag') ensures InOrder(t, src', tag') && WaitingOk(c, t, src', tag') {
      ArriveKeepsKey(c, s, src, p, src', tag');
    }
    forall src': nat ensures WireOk(c, t.sends, t.status, WireOf(t, src'), src') { ArriveKeepsWire(c, s, src, p, src'); }
  }

  // ----- Every step -----

  lemma DropIsQuiet(c: Config, s: State, p: nat)
    requires Refers(s, p) && s.status[s.packets[p].msg].stage.Serving?
    ensures Quiet(s, Drop(s, p))
  {
  }

  lemma QuietTrans(s: State, t: State, u: State)
    requires Quiet(s, t) && Quiet(t, u) && forall m :: 0 <= m < |s.status| ==> t.status[m] == s.status[m]
    ensures Quiet(s, u)
  {
  }

  lemma RtrSentKeepsInv(c: Config, s: State, p: nat)
    requires Inv(c, s) && Enabled(c, s, RtrSent(p))
    ensures Refers(s, p) && Inv(c, StepRtrSent(s, p))
  {
    RtrSentDropping(c, s, p);
    DropKeepsCore(c, Unsending(s, p), p);
    assert PacketOk(s.packets[p], p, s.sends, s.status, s.reqs, s.rtrs, s.rdmas, s.regs);
    DropIsQuiet(c, Unsending(s, p), p);
    QuietTrans(s, Unsending(s, p), StepRtrSent(s, p));
    QuietKeepsOrder(c, s, StepRtrSent(s, p));
  }

  lemma RdmaKeepsInv(c: Config, s: State, p: nat)
    requires Inv(c, s) && p in s.rdmas
    ensures Refers(s, p) && s.rdmas[p].target < |s.reqs| && Inv(c, StepRdmaArrive(s, p))
  {
    RdmaDropping(c, s, p);
    DropKeepsCore(c, Written(s, p), p);
    InFlightServed(c, s, p);
    DropIsQuiet(c, Written(s, p), p);
    QuietTrans(s, Written(s, p), StepRdmaArrive(s, p));
    QuietKeepsOrder(c, s, StepRdmaArrive(s, p));
  }

  lemma SendKeepsInv(c: Config, s: State, x: Send)
    requires Inv(c, s) && Address(x.src, x.tag)
    ensures Inv(c, StepSend(c, s, x))
  {
    SendKeepsCore(c, s, x);
    SendKeepsOrder(c, s, x);
  }

  lemma RtrArriveKeepsInv(c: Config, s: State, p: nat)
    requires Inv(c, s) && p in s.rtrs
    ensures s.rtrs[p].cb < |s.sends| && Inv(c, StepRtrArrive(s, p))
  {
    RtrArriveKeepsCore(c, s, p);
    QuietKeepsOrder(c, s, StepRtrArrive(s, p));
  }

  lemma LongSentKeepsInv(c: Config, s: State, m: nat)
    requires Inv(c, s) && m in s.longs
    ensures m < |s.status| && Inv(c, StepLongSent(s, m))
  {
    LongSentKeepsCore(c, s, m);
    QuietKeepsOrder(c, s, StepLongSent(s, m));
  }

  /** The guards that `Step` repeats hold whenever the event is enabled. */
  lemma StepIs(c: Config, s: State, e: Event)
    requires Inv(c, s) && Enabled(c, s, e)
    ensures match e
      case DoSend(src, tag, data) => true
      case DoRecv(src, tag) => true
      case Arrive(src, p) => Step(c, s, e) == StepArrive(c, s, src, p)
      case RtrSent(p) => Refers(s, p) && Step(c, s, e) == StepRtrSent(s, p)
      case RtrArrive(p) => s.rtrs[p].cb < |s.sends| && Step(c, s, e) == StepRtrArrive(s, p)
      case RdmaArrive(p) => s.rdmas[p].target < |s.reqs| && Refers(s, p) && Step(c, s, e) == StepRdmaArrive(s, p)
      case LongSent(m) => m < |s.status| && Step(c, s, e) == StepLongSent(s, m)
  {
    if e.RtrSent? {
      assert PacketOk(s.packets[e.packet], e.packet, s.sends, s.status, s.reqs, s.rtrs, s.rdmas, s.regs);
    } else if e.RtrArrive? || e.RdmaArrive? {
      InFlightServed(c, s, e.packet);
    }
  }

  lemma StepKeepsInv(c: Config, s: State, e: Event)
    requires Inv(c, s) && Enabled(c, s, e)
    ensures Inv(c, Step(c, s, e))
  {
    StepIs(c, s, e);
    if e.DoSend? { SendKeepsInv(c, s, Send(e.src, e.tag, e.data)); }
    else if e.DoRecv? { RecvKeepsInv(c, s, e.src, e.tag); }
    else if e.Arrive? { ArriveKeepsInv(c, s, e.src, e.packet); }
    else { LaterStepKeepsInv(c, s, e); }
  }

  lemma LaterStepKeepsInv(c: Config, s: State, e: Event)
    requires Inv(c, s) && Enabled(c, s, e) && !e.DoSend? && !e.DoRecv? && !e.Arrive?
    ensures Inv(c, Step(c, s, e))
  {
    StepIs(c, s, e);
    if e.RtrSent? { RtrSentKeepsInv(c, s, e.packet); }
    else if e.RtrArrive? { RtrArriveKeepsInv(c, s, e.packet); }
    else if e.RdmaArrive? { RdmaKeepsInv(c, s, e.packet); }
    else { LongSentKeepsInv(c, s, e.msg); }
  }

  lemma {:induction false} RunKeepsInv(c: Config, s: State, events: seq<Event>)
    requires Inv(c, s)
    ensures Inv(c, Run(c, s, events))
    decreases |events|
  {
    if events != [] {
      if Enabled(c, s, events[0]) { StepKeepsInv(c, s, events[0]); }
      RunKeepsInv(c, if Enabled(c, s, events[0]) then Step(c, s, events[0]) else s, events[1..]);
    }
  }

  /** The state after any events from the start. */
  ghost function Reached(c: Config, events: seq<Event>): State {
    Run(c, Initial(), events)
  }

  lemma ReachedInv(c: Config, events: seq<Event>)
    ensures Inv(c, Reached(c, events))
  {
    InitialInv(c);
    RunKeepsInv(c, Initial(), events);
  }

  /** At first nobody waits in the table. */
  lemma NobodyWaits(c: Config, src: nat, tag: nat)
    requires Address(src, tag)
    ensures Waiters(c, [], src, tag, M.Client) == [] && Waiters(c, [], src, tag, M.Server) == []
  {
    M.NoValues(M.EmptyRow(Nothing), M.Tag(Key(src, tag), M.Client));
    M.NoValues(M.EmptyRow(Nothing), M.Tag(Key(src, tag), M.Server));
    KeysDiffer(src, tag, src, tag);
    M.TagsDiffer(Key(src, tag), M.Client, Key(src, tag), M.Server);
  }

  lemma InitialInv(c: Config)
    ensures Inv(c, Initial())
  {
    var s := Initial();
    forall src: nat, tag: nat | Address(src, tag) ensures InOrder(s, src, tag) && WaitingOk(c, s, src, tag) {
      NobodyWaits(c, src, tag);
    }
  }

  // ----- Main results -----

  /** Position of receive r among the receives posted for (src, tag). */
  function Rank(recvs: seq<Recv>, src: nat, tag: nat, r: nat): nat
    requires r <= |recvs|
  {
    |RecvItems(recvs[..r], src, tag)|
  }

  lemma {:induction false} RankOf(recvs: seq<Recv>, src: nat, tag: nat, r: nat)
    requires r < |recvs| && recvs[r] == Recv(src, tag)
    ensures Rank(recvs, src, tag, r) < |RecvItems(recvs, src, tag)|
    ensures RecvItems(recvs, src, tag)[Rank(recvs, src, tag, r)] == ReqItem(r)
    decreases |recvs|
  {
    var n := |recvs| - 1;
    if r < n {
      assert recvs[..n][..r] == recvs[..r];
      RankOf(recvs[..n], src, tag, r);
    }
  }

  lemma IdsPrefix(s: State, src: nat, tag: nat, k: nat)
    requires InOrder(s, src, tag) && k < |M.Posted(s.posts, Key(src, tag), M.Server)|
    ensures k < |Ids(s.sends, src, tag)|
    ensures Ids(s.sends, src, tag)[k] == MsgOf(M.Posted(s.posts, Key(src, tag), M.Server)[k])
  {
    MsgsOfAt(M.Posted(s.posts, Key(src, tag), M.Server), k);
  }

  /** The receives in the table are those behind the matched ones. */
  lemma ClientsRest(c: Config, posts: seq<M.Post<Item>>, src: nat, tag: nat)
    requires M.UsableKeys(posts) && Address(src, tag)
    ensures var clients := M.Posted(posts, Key(src, tag), M.Client);
      |Pairs(c, posts, src, tag)| <= |clients| && Waiters(c, posts, src, tag, M.Client) == clients[|Pairs(c, posts, src, tag)|..]
  {
    KeysDiffer(src, tag, src, tag);
    M.KthMatchesKth(posts, c.hash, Nothing, Key(src, tag));
  }

  /** A receive beyond the matched ones is still in the table. */
  lemma StillWaiting(c: Config, s: State, r: nat, src: nat, tag: nat)
    requires WaitingOk(c, s, src, tag) && InOrder(s, src, tag) && r < |s.recvs| && s.recvs[r] == Recv(src, tag)
    requires M.UsableKeys(s.posts) && Address(src, tag)
    requires Rank(s.recvs, src, tag, r) >= |Pairs(c, s.posts, src, tag)|
    ensures r < |s.reqs| && s.reqs[r].match_ == None
  {
    RankOf(s.recvs, src, tag, r);
    ClientsRest(c, s.posts, src, tag);
    var waiting := Waiters(c, s.posts, src, tag, M.Client);
    var j := Rank(s.recvs, src, tag, r) - |Pairs(c, s.posts, src, tag)|;
    assert ClientWaits(s.recvs, s.reqs, waiting[j], src, tag);
  }

  lemma MatchedPair(c: Config, s: State, r: nat, src: nat, tag: nat)
    requires WaitingOk(c, s, src, tag) && InOrder(s, src, tag) && r < |s.recvs| && s.recvs[r] == Recv(src, tag)
    requires M.UsableKeys(s.posts) && Address(src, tag)
    requires Rank(s.recvs, src, tag, r) < |Pairs(c, s.posts, src, tag)|
    ensures var k := Rank(s.recvs, src, tag, r);
      r < |s.reqs| && k < |Ids(s.sends, src, tag)| && s.reqs[r].match_ == Some(Ids(s.sends, src, tag)[k])
  {
    var k, pairs := Rank(s.recvs, src, tag, r), Pairs(c, s.posts, src, tag);
    RankOf(s.recvs, src, tag, r);
    KeysDiffer(src, tag, src, tag);
    M.KthMatchesKth(s.posts, c.hash, Nothing, Key(src, tag));
    assert PairOk(s.reqs, pairs[k]);
    IdsPrefix(s, src, tag, k);
  }

  /** In a state of the invariant the k-th receive for (src, tag) is matched, if at all, with the k-th message sent by
      src under tag. */
  lemma MatchedInOrder(c: Config, s: State, r: nat)
    requires Inv(c, s) && r < |s.recvs| && s.reqs[r].match_ != None
    ensures var (src, tag) := (s.recvs[r].src, s.recvs[r].tag);
      var k := Rank(s.recvs, src, tag, r);
      k < |Ids(s.sends, src, tag)| && s.reqs[r].match_ == Some(Ids(s.sends, src, tag)[k])
  {
    var src, tag := s.recvs[r].src, s.recvs[r].tag;
    assert InOrder(s, src, tag) && WaitingOk(c, s, src, tag);
    if Rank(s.recvs, src, tag, r) < |Pairs(c, s.posts, src, tag)| {
      MatchedPair(c, s, r, src, tag);
    } else {
      StillWaiting(c, s, r, src, tag);
    }
  }

  /** Receive r is the k-th posted for its source and tag, has completed once, and there is a k-th message. */
  ghost predicate HasMessage(t: State, r: nat) {
    && r < |t.recvs| == |t.reqs| && t.reqs[r].completions == 1
    && var (src, tag) := (t.recvs[r].src, t.recvs[r].tag);
       var k := Rank(t.recvs, src, tag, r);
       k < |Ids(t.sends, src, tag)| && Ids(t.sends, src, tag)[k] < |t.sends|
  }

  /** That message. */
  ghost function ItsMessage(t: State, r: nat): Send
    requires HasMessage(t, r)
  {
    var (src, tag) := (t.recvs[r].src, t.recvs[r].tag);
    t.sends[Ids(t.sends, src, tag)[Rank(t.recvs, src, tag, r)]]
  }

  /** Receive r has completed once and has the bytes of its message. */
  ghost predicate GotItsMessage(t: State, r: nat) {
    HasMessage(t, r) && t.reqs[r].buffer == Some(ItsMessage(t, r).data)
  }

  ghost predicate AllFit(c: Config, sends: seq<Send>) {
    forall m :: 0 <= m < |sends| ==> Fits(c, sends[m])
  }

  /** In every run whose messages fit, whichever came first and whichever protocol carried it: when the k-th receive
      posted for (src, tag) completes, it completes once, and its buffer holds the bytes of the k-th message that src
      sent under tag. */
  lemma EndToEnd(c: Config, events: seq<Event>, r: nat)
    ensures var t := Reached(c, events);
      AllFit(c, t.sends) && r < |t.reqs| && t.reqs[r].completions > 0 ==> GotItsMessage(t, r)
  {
    EndToEndExact(c, events, r);
  }

  /** In every run a receive that completes has the bytes of its message if and only if that message fits. */
  lemma EndToEndExact(c: Config, events: seq<Event>, r: nat)
    ensures var t := Reached(c, events);
      r < |t.reqs| && t.reqs[r].completions > 0 ==>
        HasMessage(t, r) && (GotItsMessage(t, r) <==> Fits(c, ItsMessage(t, r)))
  {
    var t := Reached(c, events);
    ReachedInv(c, events);
    if r < |t.reqs| && t.reqs[r].completions > 0 { CompletedGotIt(c, t, r); }
  }

  lemma CompletedGotIt(c: Config, t: State, r: nat)
    requires Inv(c, t) && r < |t.reqs| && t.reqs[r].completions > 0
    ensures HasMessage(t, r) && (GotItsMessage(t, r) <==> Fits(c, ItsMessage(t, r)))
  {
    CompletedMatch(c, t, r);
    MatchedInOrder(c, t, r);
    DeliveredIffFits(c, ItsMessage(t, r));
  }

  lemma CompletedMatch(c: Config, t: State, r: nat)
    requires Core(c, t) && r < |t.reqs| && t.reqs[r].completions > 0
    ensures t.reqs[r].completions == 1 && t.reqs[r].match_.Some? && t.reqs[r].match_.value < |t.sends|
    ensures t.reqs[r].buffer == Some(Delivered(c, t.sends[t.reqs[r].match_.value]))
  {
    assert ReqOk(c, t.reqs[r], r, t.sends, t.status, t.packets);
  }

  lemma RunCons(c: Config, s: State, e: Event, rest: seq<Event>)
    ensures Run(c, s, [e] + rest) == Run(c, if Enabled(c, s, e) then Step(c, s, e) else s, rest)
  {
    assert ([e] + rest)[1..] == rest;
  }

  /** A receive is posted and a message sent to it. */
  function OneSent(c: Config, data: Bytes): State {
    StepSend(c, Recorded(Initial(), 0, 0), Send(0, 0, data))
  }

  lemma OneReceive(c: Config)
    ensures StepRecv(c, Initial(), 0, 0) == Recorded(Initial(), 0, 0)
    ensures Waiters(c, Recorded(Initial(), 0, 0).posts, 0, 0, M.Client) == [ReqItem(0)]
  {
    InitialInv(c);
    NobodyWaits(c, 0, 0);
    RecvFinds(c, Initial(), 0, 0);
    RecordedQueues(c, Initial(), 0, 0, 0, 0);
  }

  lemma OneSentInv(c: Config, data: Bytes)
    ensures Inv(c, OneSent(c, data))
  {
    InitialInv(c);
    OneReceive(c);
    RecvKeepsInv(c, Initial(), 0, 0);
    SendKeepsInv(c, Recorded(Initial(), 0, 0), Send(0, 0, data));
  }

  lemma OneSentReached(c: Config, data: Bytes, rest: seq<Event>)
    ensures Reached(c, [DoRecv(0, 0), DoSend(0, 0, data)] + rest) == Run(c, OneSent(c, data), rest)
  {
    OneReceive(c);
    assert [DoRecv(0, 0), DoSend(0, 0, data)] + rest == [DoRecv(0, 0)] + ([DoSend(0, 0, data)] + rest);
    RunCons(c, Initial(), DoRecv(0, 0), [DoSend(0, 0, data)] + rest);
    RunCons(c, Recorded(Initial(), 0, 0), DoSend(0, 0, data), rest);
  }

  /** The message arrives in packet 0 and meets the receive. */
  lemma OneArrives(c: Config, data: Bytes)
    requires |data| <= c.packetSize
    ensures var t := StepArrive(c, OneSent(c, data), 0, 0);
      t.reqs == [Req(Some(InRoom(c, data)), 1, Some(0))] && t.sends == [Send(0, 0, data)]
  {
    OneSentInv(c, data);
    OneReceive(c);
    ArriveFinds(c, OneSent(c, data), 0, 0);
  }

  /** A medium message with more bytes than a packet has room for, sent to a posted receive: the receive completes
      without its last bytes. */
  lemma TooLargeIsCut(c: Config, data: Bytes)
    requires c.room < |data| <= c.packetSize
    ensures var t := Reached(c, [DoRecv(0, 0), DoSend(0, 0, data), Arrive(0, 0)]);
      |t.reqs| == 1 && t.reqs[0].completions == 1 && t.reqs[0].buffer == Some(data[..c.room]) && !GotItsMessage(t, 0)
  {
    var events := [DoRecv(0, 0), DoSend(0, 0, data), Arrive(0, 0)];
    assert events == [DoRecv(0, 0), DoSend(0, 0, data)] + [Arrive(0, 0)] && [Arrive(0, 0)] == [Arrive(0, 0)] + [];
    OneSentReached(c, data, [Arrive(0, 0)]);
    RunCons(c, OneSent(c, data), Arrive(0, 0), []);
    OneArrives(c, data);
    EndToEndExact(c, events, 0);
  }

  /** In every run the sender's callback of an eager message has run once from the send on; that of a long message runs
      once, when its RDMA write has been issued and sent, and not before; and once nothing of a finished message is under
      way it has run exactly once. */
  lemma CallbackOnce(c: Config, events: seq<Event>, m: nat)
    ensures var t := Reached(c, events);
      |t.status| == |t.sends| && (m < |t.sends| ==>
        && (Eager(c, t.sends[m]) ==> t.status[m].callbacks == 1)
        && (!Eager(c, t.sends[m]) ==> t.status[m].callbacks == if t.status[m].issued && m !in t.longs then 1 else 0)
        && (t.status[m].stage == Done && m !in t.longs ==> t.status[m].callbacks == 1))
  {
    var t := Reached(c, events);
    ReachedInv(c, events);
    if m < |t.sends| { assert StatusOk(c, t.sends[m], t.status[m], m, t.packets, t.longs); }
  }

  /** In every run each receive matched with a long message has exactly one registration, which has been undone once if
      the data of that receive has arrived, and not at all before; an RDMA write under way finds it still in place. */
  lemma DeregisteredOnce(c: Config, events: seq<Event>)
    ensures var t := Reached(c, events);
      && (forall x :: 0 <= x < |t.regs| ==>
            && t.regs[x].req < |t.reqs|
            && t.regs[x].deregs == if t.reqs[t.regs[x].req].buffer.Some? then 1 else 0)
      && (forall x, y :: 0 <= x < y < |t.regs| ==> t.regs[x].req != t.regs[y].req)
      && (forall r :: 0 <= r < |t.reqs| && LongMatched(c, t.sends, t.reqs[r]) ==> HasReg(t.regs, r))
      && (forall p :: p in t.rdmas ==>
            && Refers(t, p) && t.packets[p].mem < |t.regs|
            && t.regs[t.packets[p].mem] == Reg(p, t.packets[p].req, 0))
  {
    var t := Reached(c, events);
    ReachedInv(c, events);
    forall p | p in t.rdmas
      ensures Refers(t, p) && t.packets[p].mem < |t.regs| && t.regs[t.packets[p].mem] == Reg(p, t.packets[p].req, 0)
    {
      InFlightServed(c, t, p);
    }
    forall x | 0 <= x < |t.regs|
      ensures t.regs[x].req < |t.reqs| && t.regs[x].deregs == if t.reqs[t.regs[x].req].buffer.Some? then 1 else 0
    {
      assert RegOk(t.regs[x], x, t.reqs, t.packets);
    }
  }

  lemma DropCompletes(s: State, p: nat)
    requires Refers(s, p)
    ensures Drop(s, p).reqs[s.packets[p].req].completions ==
      s.reqs[s.packets[p].req].completions + if s.packets[p].ref == 1 then 1 else 0
  {
  }

  /** A rendezvous completes its receive at the second of two events, in either order.  Either the completion of the
      RTR's send comes second ... */
  lemma RtrSentCompletes(c: Config, s: State, p: nat)
    requires Inv(c, s) && Enabled(c, s, RtrSent(p))
    ensures Refers(s, p) && s.reqs[s.packets[p].req].completions == 0
    ensures StepRtrSent(s, p).reqs[s.packets[p].req].completions == if p !in s.rtrs && p !in s.rdmas then 1 else 0
  {
    assert PacketOk(s.packets[p], p, s.sends, s.status, s.reqs, s.rtrs, s.rdmas, s.regs);
    DropCompletes(Unsending(s, p), p);
  }

  /** ... or the arrival of the data does. */
  lemma RdmaCompletes(c: Config, s: State, p: nat)
    requires Inv(c, s) && p in s.rdmas
    ensures Refers(s, p) && s.rdmas[p].target < |s.reqs| && s.reqs[s.packets[p].req].completions == 0
    ensures StepRdmaArrive(s, p).reqs[s.packets[p].req].completions == if !s.packets[p].sending then 1 else 0
  {
    InFlightServed(c, s, p);
    DropCompletes(Written(s, p), p);
  }

  /** Nothing from src is on the wire, and no rendezvous waits for anything. */
  ghost predicate Quiescent(s: State, src: nat) {
    && WireOf(s, src) == [] && s.rtrs == map[] && s.rdmas == map[]
    && forall p :: p in s.packets && s.packets[p].Served? ==> !s.packets[p].sending
  }

  lemma QuiescentMatched(c: Config, s: State, r: nat, src: nat, tag: nat)
    requires InOrder(s, src, tag) && M.UsableKeys(s.posts) && Address(src, tag) && WireOf(s, src) == []
    requires r < |s.recvs| && s.recvs[r] == Recv(src, tag) && Rank(s.recvs, src, tag, r) < |Ids(s.sends, src, tag)|
    ensures Rank(s.recvs, src, tag, r) < |Pairs(c, s.posts, src, tag)|
  {
    RankOf(s.recvs, src, tag, r);
    KeysDiffer(src, tag, src, tag);
    M.KthMatchesKth(s.posts, c.hash, Nothing, Key(src, tag));
    var servers := M.Posted(s.posts, Key(src, tag), M.Server);
    assert MsgsOf(servers) + Tagged([], tag) == MsgsOf(servers);
    if servers != [] { MsgsOfAt(servers, 0); }
  }

  /** Nothing is lost: when everything from src came to rest, every receive for which there is a message has
      completed, with its bytes if and only if it fits. */
  lemma NothingLost(c: Config, events: seq<Event>, r: nat)
    ensures var t := Reached(c, events);
      r < |t.recvs| && Quiescent(t, t.recvs[r].src)
      && Rank(t.recvs, t.recvs[r].src, t.recvs[r].tag, r) < |Ids(t.sends, t.recvs[r].src, t.recvs[r].tag)|
      ==> HasMessage(t, r) && (GotItsMessage(t, r) <==> Fits(c, ItsMessage(t, r)))
  {
    var t := Reached(c, events);
    ReachedInv(c, events);
    if r < |t.recvs| && Quiescent(t, t.recvs[r].src)
       && Rank(t.recvs, t.recvs[r].src, t.recvs[r].tag, r) < |Ids(t.sends, t.recvs[r].src, t.recvs[r].tag)|
    {
      RestGotIt(c, t, r);
    }
  }

  lemma RestGotIt(c: Config, t: State, r: nat)
    requires Inv(c, t) && r < |t.recvs| && Quiescent(t, t.recvs[r].src)
    requires Rank(t.recvs, t.recvs[r].src, t.recvs[r].tag, r) < |Ids(t.sends, t.recvs[r].src, t.recvs[r].tag)|
    ensures HasMessage(t, r) && (GotItsMessage(t, r) <==> Fits(c, ItsMessage(t, r)))
  {
    var src, tag := t.recvs[r].src, t.recvs[r].tag;
    assert InOrder(t, src, tag) && WaitingOk(c, t, src, tag);
    QuiescentMatched(c, t, r, src, tag);
    MatchedPair(c, t, r, src, tag);
    AtRest(c, t, r);
    CompletedGotIt(c, t, r);
  }

  lemma AtRest(c: Config, s: State, r: nat)
    requires Core(c, s) && r < |s.reqs| && s.reqs[r].match_ != None && s.rtrs == map[] && s.rdmas == map[]
    requires forall p :: p in s.packets && s.packets[p].Served? ==> !s.packets[p].sending
    ensures s.reqs[r].completions == 1
  {
    assert ReqOk(c, s.reqs[r], r, s.sends, s.status, s.packets);
    forall p | p in s.packets ensures !s.packets[p].Served? {
      assert PacketOk(s.packets[p], p, s.sends, s.status, s.reqs, s.rtrs, s.rdmas, s.regs);
    }
  }
}
