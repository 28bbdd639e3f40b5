/** What the collectives take for granted: to a receiver that posts one receive at a time for a source and tag, the
    messages sent by that source under that tag are a first-in first-out channel. */
module MessageChannel {
  import opened Wrappers
  import opened Messaging
  import opened MessageOrder

  /** The bytes sent by src under tag, in the order of the sends. */
  function SentUnder(sends: seq<Send>, src: nat, tag: nat): seq<Bytes>
    decreases |sends|
  {
    if sends == [] then []
    else
      var n := |sends| - 1;
      SentUnder(sends[..n], src, tag) + if sends[n].src == src && sends[n].tag == tag then [sends[n].data] else []
  }

  lemma {:induction false} SentAt(sends: seq<Send>, src: nat, tag: nat)
    ensures |SentUnder(sends, src, tag)| == |Ids(sends, src, tag)|
    ensures forall k :: 0 <= k < |Ids(sends, src, tag)| ==>
      Ids(sends, src, tag)[k] < |sends| && SentUnder(sends, src, tag)[k] == sends[Ids(sends, src, tag)[k]].data
    decreases |sends|
  {
    if sends != [] { SentAt(sends[..|sends| - 1], src, tag); }
  }

  lemma SentSnoc(sends: seq<Send>, x: Send, src: nat, tag: nat)
    ensures SentUnder(sends + [x], src, tag) ==
      SentUnder(sends, src, tag) + if x.src == src && x.tag == tag then [x.data] else []
  {
    assert (sends + [x])[..|sends|] == sends;
  }

  /** Is receive r one for (src, tag)? */
  predicate For(recvs: seq<Recv>, r: nat, src: nat, tag: nat) {
    r < |recvs| && recvs[r] == Recv(src, tag)
  }

  predicate Complete(reqs: seq<Req>, r: nat) {
    r < |reqs| && reqs[r].completions > 0
  }

  /** How many of the first n receives are for (src, tag). */
  function PostedOf(recvs: seq<Recv>, n: nat, src: nat, tag: nat): nat
    requires n <= |recvs|
  {
    if n == 0 then 0 else PostedOf(recvs, n - 1, src, tag) + if recvs[n - 1] == Recv(src, tag) then 1 else 0
  }

  lemma {:induction false} PostedIsRank(recvs: seq<Recv>, n: nat, src: nat, tag: nat)
    requires n <= |recvs|
    ensures PostedOf(recvs, n, src, tag) == Rank(recvs, src, tag, n)
  {
    if n > 0 {
      PostedIsRank(recvs, n - 1, src, tag);
      assert recvs[..n][..n - 1] == recvs[..n - 1];
    }
  }

  /** What the completed ones among the first n receives hold, oldest first. */
  function Got(recvs: seq<Recv>, reqs: seq<Req>, n: nat, src: nat, tag: nat): seq<Option<Bytes>>
    requires n <= |recvs| == |reqs|
  {
    if n == 0 then []
    else
      Got(recvs, reqs, n - 1, src, tag) +
      if recvs[n - 1] == Recv(src, tag) && Complete(reqs, n - 1) then [reqs[n - 1].buffer] else []
  }

  function GotUnder(s: State, src: nat, tag: nat): seq<Option<Bytes>>
    requires |s.recvs| == |s.reqs|
  {
    Got(s.recvs, s.reqs, |s.recvs|, src, tag)
  }

  /** The next receive is posted only when the earlier ones have completed. */
  ghost predicate OneAtATime(s: State, src: nat, tag: nat) {
    forall q, r :: 0 <= q < r && For(s.recvs, q, src, tag) && For(s.recvs, r, src, tag) ==> Complete(s.reqs, q)
  }

  /** What was sent and not received yet. */
  function Channel(s: State, src: nat, tag: nat): seq<Bytes>
    requires |s.recvs| == |s.reqs|
  {
    var sent, got := SentUnder(s.sends, src, tag), |GotUnder(s, src, tag)|;
    if got <= |sent| then sent[got..] else []
  }

  /** The first n receives hold, in order, the first messages sent. */
  predicate Prefix(got: seq<Option<Bytes>>, sent: seq<Bytes>) {
    |got| <= |sent| && forall k :: 0 <= k < |got| ==> got[k] == Some(sent[k])
  }

  lemma Lengths(c: Config, s: State)
    requires Inv(c, s)
    ensures |s.recvs| == |s.reqs|
  {
  }

  /** A completed receive for (src, tag) holds the message of its place. */
  ghost predicate ServesAt(s: State, r: nat, src: nat, tag: nat) {
    For(s.recvs, r, src, tag) && Complete(s.reqs, r) ==>
      var k := PostedOf(s.recvs, r, src, tag);
      k < |SentUnder(s.sends, src, tag)| && s.reqs[r].buffer == Some(SentUnder(s.sends, src, tag)[k])
  }

  ghost predicate Serves(s: State, src: nat, tag: nat) {
    |s.recvs| == |s.reqs| && forall r :: 0 <= r < |s.recvs| ==> ServesAt(s, r, src, tag)
  }

  lemma InvServesAt(c: Config, s: State, r: nat)
    requires Inv(c, s) && AllFit(c, s.sends) && r < |s.recvs|
    ensures ServesAt(s, r, s.recvs[r].src, s.recvs[r].tag)
  {
    if Complete(s.reqs, r) {
      CompletedGotIt(c, s, r);
      PostedIsRank(s.recvs, r, s.recvs[r].src, s.recvs[r].tag);
      SentAt(s.sends, s.recvs[r].src, s.recvs[r].tag);
    }
  }

  lemma InvServes(c: Config, s: State, src: nat, tag: nat)
    requires Inv(c, s) && AllFit(c, s.sends)
    ensures Serves(s, src, tag)
  {
    Lengths(c, s);
    forall r | 0 <= r < |s.recvs| ensures ServesAt(s, r, src, tag) { InvServesAt(c, s, r); }
  }

  /** At most the last receive for (src, tag) is outstanding, so the completed ones are the first. */
  lemma {:induction false} GotCount(s: State, n: nat, src: nat, tag: nat)
    requires n <= |s.recvs| == |s.reqs| && OneAtATime(s, src, tag)
    ensures var got := |Got(s.recvs, s.reqs, n, src, tag)|;
      && got <= PostedOf(s.recvs, n, src, tag) <= got + 1
      && (forall r :: n <= r && For(s.recvs, r, src, tag) ==> got == PostedOf(s.recvs, n, src, tag))
  {
    if n > 0 {
      GotCount(s, n - 1, src, tag);
      assert For(s.recvs, n - 1, src, tag) <==> s.recvs[n - 1] == Recv(src, tag);
    }
  }

  lemma {:induction false} GotPrefix(s: State, n: nat, src: nat, tag: nat)
    requires Serves(s, src, tag) && OneAtATime(s, src, tag) && n <= |s.recvs|
    ensures Prefix(Got(s.recvs, s.reqs, n, src, tag), SentUnder(s.sends, src, tag))
  {
    if n > 0 {
      GotPrefix(s, n - 1, src, tag);
      if s.recvs[n - 1] == Recv(src, tag) && Complete(s.reqs, n - 1) {
        assert For(s.recvs, n - 1, src, tag);
        GotCount(s, n - 1, src, tag);
        assert ServesAt(s, n - 1, src, tag);
      }
    }
  }

  lemma InvPrefix(c: Config, s: State, src: nat, tag: nat)
    requires Inv(c, s) && AllFit(c, s.sends) && OneAtATime(s, src, tag)
    ensures |s.recvs| == |s.reqs| && Prefix(GotUnder(s, src, tag), SentUnder(s.sends, src, tag))
  {
    InvServes(c, s, src, tag);
    GotPrefix(s, |s.recvs|, src, tag);
  }

  /** In every run: what the receives for (src, tag) have got so far are the first messages sent, in order. */
  lemma ReceivedIsPrefix(c: Config, events: seq<Event>, src: nat, tag: nat)
    ensures var t := Reached(c, events);
      |t.recvs| == |t.reqs| &&
      (AllFit(c, t.sends) && OneAtATime(t, src, tag) ==> Prefix(GotUnder(t, src, tag), SentUnder(t.sends, src, tag)))
  {
    var t := Reached(c, events);
    ReachedInv(c, events);
    Lengths(c, t);
    if AllFit(c, t.sends) && OneAtATime(t, src, tag) { InvPrefix(c, t, src, tag); }
  }

  // ----- Steps of the channel -----

  /** What one event puts into the channel. */
  function Put(e: Event, src: nat, tag: nat): seq<Bytes> {
    if e.DoSend? && e.src == src && e.tag == tag then [e.data] else []
  }

  ghost predicate StayComplete(reqs: seq<Req>, reqs': seq<Req>) {
    forall r :: Complete(reqs, r) ==> Complete(reqs', r)
  }

  /** Sends and receives are added at the end, and what is complete stays so. */
  ghost predicate Grown(s: State, t: State, e: Event) {
    && t.sends == s.sends + (if e.DoSend? then [Send(e.src, e.tag, e.data)] else [])
    && t.recvs == s.recvs + (if e.DoRecv? then [Recv(e.src, e.tag)] else [])
    && StayComplete(s.reqs, t.reqs)
    && (e.DoRecv? ==> StayComplete(t.reqs[..if |s.reqs| <= |t.reqs| then |s.reqs| else 0], s.reqs))
  }

  lemma MeetGrows(c: Config, s: State, r: nat, p: nat, m: nat, b: Bytes)
    requires m < |s.sends| == |s.status| && r < |s.reqs|
    ensures var t := Meet(c, s, r, p, m, b);
      && t.sends == s.sends && t.recvs == s.recvs && StayComplete(s.reqs, t.reqs) && |t.reqs| == |s.reqs|
      && forall q :: 0 <= q < |s.reqs| && q != r ==> t.reqs[q] == s.reqs[q]
  {
  }

  lemma RecvGrows(c: Config, s: State, src: nat, tag: nat)
    ensures Grown(s, StepRecv(c, s, src, tag), DoRecv(src, tag))
  {
    var out := Lookup(c, s, RecvPost(s, src, tag));
    var t := s.(recvs := s.recvs + [Recv(src, tag)], reqs := s.reqs + [Req(None, 0, None)],
                posts := s.posts + [RecvPost(s, src, tag)]);
    if !out.inserted && out.value.PktItem? && out.value.msg < |t.sends| == |t.status| {
      MeetGrows(c, t, |s.reqs|, out.value.packet, out.value.msg, BytesIn(s.packets, out.value.packet));
    }
  }

  lemma ArriveGrows(c: Config, s: State, src: nat, p: nat)
    requires WireOf(s, src) != []
    ensures var t := StepArrive(c, s, src, p);
      t.sends == s.sends && t.recvs == s.recvs && StayComplete(s.reqs, t.reqs)
  {
    var m, b := WireOf(s, src)[0].msg, InRoom(c, WireOf(s, src)[0].payload);
    var post := ArrivePost(s, src, p);
    var out := Lookup(c, s, post);
    var t := s.(wires := s.wires[src := WireOf(s, src)[1..]], posts := s.posts + [post]);
    if m < |t.sends| == |t.status| && !out.inserted && out.value.ReqItem? && out.value.req < |t.reqs| {
      MeetGrows(c, t, out.value.req, p, m, b);
    }
  }

  lemma DropGrows(s: State, p: nat)
    requires Refers(s, p)
    ensures var t := Drop(s, p); t.sends == s.sends && t.recvs == s.recvs && StayComplete(s.reqs, t.reqs)
  {
  }

  lemma RdmaGrows(s: State, p: nat)
    requires p in s.rdmas && s.rdmas[p].target < |s.reqs| && Refers(s, p)
    ensures var t := StepRdmaArrive(s, p); t.sends == s.sends && t.recvs == s.recvs && StayComplete(s.reqs, t.reqs)
  {
    var d := s.rdmas[p];
    DropGrows(s.(rdmas := s.rdmas - {p}, reqs := s.reqs[d.target := s.reqs[d.target].(buffer := Some(d.payload))],
                 regs := Undone(s.regs, s.packets[p].mem)), p);
  }

  lemma RtrSentGrows(s: State, p: nat)
    requires Refers(s, p)
    ensures var t := StepRtrSent(s, p); t.sends == s.sends && t.recvs == s.recvs && StayComplete(s.reqs, t.reqs)
  {
    DropGrows(s.(packets := s.packets[p := s.packets[p].(sending := false)]), p);
  }

  lemma StepGrows(c: Config, s: State, e: Event)
    ensures Grown(s, Step(c, s, e), e)
  {
    match e
    case DoSend(_, _, _) =>
    case DoRecv(src, tag) => RecvGrows(c, s, src, tag);
    case Arrive(src, p) => if WireOf(s, src) != [] { ArriveGrows(c, s, src, p); }
    case RtrSent(p) => if Refers(s, p) { RtrSentGrows(s, p); }
    case RtrArrive(_) =>
    case RdmaArrive(p) => if p in s.rdmas && s.rdmas[p].target < |s.reqs| && Refers(s, p) { RdmaGrows(s, p); }
    case LongSent(_) =>
  }

  lemma {:induction false} GotGrows(recvs: seq<Recv>, reqs: seq<Req>, recvs': seq<Recv>, reqs': seq<Req>, n: nat,
                                    src: nat, tag: nat)
    requires n <= |recvs| == |reqs| && n <= |recvs'| == |reqs'| && recvs[..n] == recvs'[..n]
    requires forall r :: 0 <= r < n && Complete(reqs, r) ==> Complete(reqs', r)
    ensures |Got(recvs, reqs, n, src, tag)| <= |Got(recvs', reqs', n, src, tag)|
    ensures PostedOf(recvs, n, src, tag) == PostedOf(recvs', n, src, tag)
  {
    if n > 0 {
      assert recvs[n - 1] == recvs[..n][n - 1] == recvs'[..n][n - 1] == recvs'[n - 1];
      assert recvs[..n - 1] == recvs[..n][..n - 1] == recvs'[..n][..n - 1] == recvs'[..n - 1];
      GotGrows(recvs, reqs, recvs', reqs', n - 1, src, tag);
    }
  }

  /** An event completes at most one receive for (src, tag). */
  lemma OneMore(s: State, t: State, e: Event, src: nat, tag: nat)
    requires Grown(s, t, e) && |s.recvs| == |s.reqs| && |t.recvs| == |t.reqs|
    requires OneAtATime(s, src, tag) && OneAtATime(t, src, tag)
    ensures |GotUnder(s, src, tag)| <= |GotUnder(t, src, tag)| <= |GotUnder(s, src, tag)| + 1
  {
    var n := |s.recvs|;
    GotGrows(s.recvs, s.reqs, t.recvs, t.reqs, n, src, tag);
    GotCount(s, n, src, tag);
    GotCount(t, n, src, tag);
    if e.DoRecv? {
      forall r | 0 <= r < n && Complete(t.reqs, r) ensures Complete(s.reqs, r) { assert Complete(t.reqs[..n], r); }
      GotGrows(t.recvs, t.reqs, s.recvs, s.reqs, n, src, tag);
    }
  }

  lemma SentGrows(s: State, t: State, e: Event, src: nat, tag: nat)
    requires Grown(s, t, e)
    ensures SentUnder(t.sends, src, tag) == SentUnder(s.sends, src, tag) + Put(e, src, tag)
  {
    if e.DoSend? {
      SentSnoc(s.sends, Send(e.src, e.tag, e.data), src, tag);
    } else {
      assert t.sends == s.sends && SentUnder(s.sends, src, tag) + [] == SentUnder(s.sends, src, tag);
    }
  }

  lemma FittedBefore(c: Config, s: State, t: State, e: Event)
    requires Grown(s, t, e) && AllFit(c, t.sends)
    ensures AllFit(c, s.sends)
  {
    forall m | 0 <= m < |s.sends| ensures Fits(c, s.sends[m]) { assert t.sends[m] == s.sends[m]; }
  }

  /** While every message fits, an event works on the channel as on a queue: a send puts its bytes in at the end, the
      completion of a receive takes the first out, into its buffer, and nothing else touches it. */
  lemma ChannelStep(c: Config, s: State, e: Event, t: State, src: nat, tag: nat)
    requires Inv(c, s) && Enabled(c, s, e) && t == Step(c, s, e) && AllFit(c, t.sends)
    requires OneAtATime(s, src, tag) && OneAtATime(t, src, tag)
    ensures |s.recvs| == |s.reqs| && |t.recvs| == |t.reqs|
    ensures var before := Channel(s, src, tag) + Put(e, src, tag);
      || (GotUnder(t, src, tag) == GotUnder(s, src, tag) && Channel(t, src, tag) == before)
      || (before != [] && GotUnder(t, src, tag) == GotUnder(s, src, tag) + [Some(before[0])]
          && Channel(t, src, tag) == before[1..])
  {
    StepGrows(c, s, e);
    FittedBefore(c, s, t, e);
    InvPrefix(c, s, src, tag);
    StepKeepsInv(c, s, e);
    InvPrefix(c, t, src, tag);
    OneMore(s, t, e, src, tag);
    SentGrows(s, t, e, src, tag);
    Queued(GotUnder(s, src, tag), SentUnder(s.sends, src, tag), GotUnder(t, src, tag), Put(e, src, tag));
  }

  lemma Queued(got: seq<Option<Bytes>>, sent: seq<Bytes>, got': seq<Option<Bytes>>, put: seq<Bytes>)
    requires Prefix(got, sent) && Prefix(got', sent + put) && |got| <= |got'| <= |got| + 1
    ensures var before := sent[|got|..] + put;
      || (got' == got && (sent + put)[|got'|..] == before)
      || (before != [] && got' == got + [Some(before[0])] && (sent + put)[|got'|..] == before[1..])
  {
  }
}
