/** Recursive-doubling allreduce: the schedule of every rank, for any number of ranks, and the value every rank ends
    with. */
module Allreduce {
  import opened ColEngine

  // ----- Powers of two and partners -----

  function Pow2(k: nat): (p: nat)
    ensures p >= 1
  {
    if k == 0 then 1 else 2 * Pow2(k - 1)
  }

  function BitLength(value: nat): nat {
    if value == 0 then 0 else 1 + BitLength(value / 2)
  }

  /** 1 shifted left by the number of significant bits. */
  function NextPowerOfTwo(value: nat): nat {
    if value == 0 then 1 else Pow2(BitLength(value))
  }

  lemma {:induction false} NextPowerBounds(value: nat)
    requires value >= 1
    ensures value < NextPowerOfTwo(value) <= 2 * value
  {
    if value > 1 { NextPowerBounds(value / 2); }
  }

  /** Bitwise exclusive or. */
  function Xor(a: nat, b: nat): nat
    decreases a + b
  {
    if a == 0 && b == 0 then 0 else 2 * Xor(a / 2, b / 2) + (a % 2 + b % 2) % 2
  }

  /** n with bit k changed. */
  function Flip(n: nat, k: nat): nat {
    if k == 0 then if n % 2 == 0 then n + 1 else n - 1 else 2 * Flip(n / 2, k - 1) + n % 2
  }

  lemma {:induction false} XorZero(n: nat)
    ensures Xor(n, 0) == n
  {
    if n > 0 { XorZero(n / 2); }
  }

  lemma {:induction false} XorIsFlip(n: nat, k: nat)
    ensures Xor(n, Pow2(k)) == Flip(n, k)
  {
    if k == 0 {
      XorZero(n / 2);
    } else {
      XorIsFlip(n / 2, k - 1);
      assert Pow2(k) / 2 == Pow2(k - 1) && Pow2(k) % 2 == 0;
    }
  }

  /** Partners are partners of each other, are 2 to the k apart, and stay among the ranks that take part. */
  lemma {:induction false} FlipIsInvolution(n: nat, k: nat)
    ensures Flip(Flip(n, k), k) == n
    ensures Flip(n, k) == n + Pow2(k) || Flip(n, k) == n - Pow2(k)
  {
    if k > 0 { FlipIsInvolution(n / 2, k - 1); }
  }

  lemma {:induction false} FlipStaysBelow(n: nat, k: nat, l: nat)
    requires n < Pow2(l) && k < l
    ensures Flip(n, k) < Pow2(l)
  {
    assert Pow2(l) == 2 * Pow2(l - 1);
    if k > 0 {
      FlipStaysBelow(n / 2, k - 1, l - 1);
      assert Flip(n, k) <= 2 * Flip(n / 2, k - 1) + 1;
    }
  }

  lemma {:induction false} Pow2Grows(k: nat, l: nat)
    requires k < l
    ensures Pow2(k) < Pow2(l)
  {
    if k < l - 1 { Pow2Grows(k, l - 1); }
  }

  lemma FlipsDiffer(n: nat, k: nat, l: nat)
    requires k != l
    ensures Flip(n, k) != Flip(n, l)
  {
    FlipIsInvolution(n, k);
    FlipIsInvolution(n, l);
    if k < l { Pow2Grows(k, l); } else { Pow2Grows(l, k); }
  }

  // ----- Ranks -----

  /** How `size` ranks divide: 2 to the `rounds` of them take part in the rounds, `extra` sit them out. */
  datatype Grid = Grid(size: nat, extra: nat, rounds: nat) {
    ghost predicate Valid() {
      size == extra + Pow2(rounds) && extra < Pow2(rounds)
    }
  }

  /** The largest power of two up to `size` is half of the next power of two. */
  function GridOf(size: nat): (g: Grid)
    requires size >= 1
    ensures g.Valid() && g.size == size
  {
    NextPowerBounds(size);
    Grid(size, size - NextPowerOfTwo(size) / 2, BitLength(size) - 1)
  }

  /** An even rank among the first 2 * extra hands its value to its neighbour and sits the rounds out. */
  predicate SitsOut(g: Grid, rank: nat) {
    rank < 2 * g.extra && rank % 2 == 0
  }

  predicate Helps(g: Grid, rank: nat) {
    rank < 2 * g.extra && rank % 2 == 1
  }

  function NewRank(g: Grid, rank: nat): (n: nat)
    requires g.Valid() && rank < g.size && !SitsOut(g, rank)
    ensures n < Pow2(g.rounds)
  {
    if rank < 2 * g.extra then rank / 2 else rank - g.extra
  }

  function RealRank(g: Grid, n: nat): (rank: nat)
    requires g.Valid() && n < Pow2(g.rounds)
    ensures rank < g.size && !SitsOut(g, rank)
  {
    if n < g.extra then 2 * n + 1 else n + g.extra
  }

  /** New ranks number exactly the ranks that take part in the rounds. */
  lemma RankBijection(g: Grid, rank: nat, n: nat)
    requires g.Valid() && rank < g.size && n < Pow2(g.rounds)
    ensures NewRank(g, RealRank(g, n)) == n
    ensures !SitsOut(g, rank) ==> RealRank(g, NewRank(g, rank)) == rank
  {
  }

  function Partner(g: Grid, rank: nat, k: nat): (p: nat)
    requires g.Valid() && rank < g.size && !SitsOut(g, rank) && k < g.rounds
    ensures p < g.size && !SitsOut(g, p)
  {
    FlipStaysBelow(NewRank(g, rank), k, g.rounds);
    RealRank(g, Flip(NewRank(g, rank), k))
  }

  /** The partner of the partner is the rank itself, partners in different rounds differ, nobody is its own partner. */
  lemma PartnerInvolution(g: Grid, rank: nat, k: nat)
    requires g.Valid() && rank < g.size && !SitsOut(g, rank) && k < g.rounds
    ensures Partner(g, Partner(g, rank, k), k) == rank
    ensures Partner(g, rank, k) != rank
    ensures forall l :: 0 <= l < g.rounds && l != k ==> Partner(g, rank, l) != Partner(g, rank, k)
  {
    var n := NewRank(g, rank);
    FlipStaysBelow(n, k, g.rounds);
    FlipIsInvolution(n, k);
    RankBijection(g, rank, Flip(n, k));
    forall l | 0 <= l < g.rounds && l != k ensures Partner(g, rank, l) != Partner(g, rank, k) {
      FlipStaysBelow(n, l, g.rounds);
      FlipsDiffer(n, k, l);
      RankBijection(g, rank, Flip(n, l));
    }
  }

  // ----- The schedule -----

  function RoundOp(g: Grid, rank: nat, c: nat): Op
    requires g.Valid() && rank < g.size && !SitsOut(g, rank) && c < 2 * g.rounds
  {
    if c % 2 == 0 then SendRecv(Work, Result, Partner(g, rank, c / 2)) else Combine(Work, Result)
  }

  function Rounds(g: Grid, rank: nat, k: nat): seq<Op>
    requires g.Valid() && rank < g.size && !SitsOut(g, rank) && k <= g.rounds
  {
    seq(2 * k, c requires 0 <= c < 2 * k => RoundOp(g, rank, c))
  }

  /** Where the rounds begin. */
  function Lead(g: Grid, rank: nat): nat {
    if Helps(g, rank) then 2 else 0
  }

  /** Position of the exchange of round k. */
  function RoundAt(g: Grid, rank: nat, k: nat): nat
  {
    Lead(g, rank) + 2 * k
  }

  function Before(g: Grid, rank: nat): seq<Op> {
    if SitsOut(g, rank) then [Send(Work, rank + 1)]
    else if Helps(g, rank) then [Recv(Result, rank - 1), Combine(Work, Result)]
    else []
  }

  function After(g: Grid, rank: nat): seq<Op> {
    if SitsOut(g, rank) then [Recv(Result, rank + 1), Free(Work)]
    else if Helps(g, rank) then [Send(Work, rank - 1), Copy(Result, Work), Free(Work)]
    else [Copy(Result, Work), Free(Work)]
  }

  function Length(g: Grid, rank: nat): nat {
    if SitsOut(g, rank) then 3 else if Helps(g, rank) then 2 * g.rounds + 5 else 2 * g.rounds + 2
  }

  /** Operation c of the schedule of a rank. */
  function OpOf(g: Grid, rank: nat, c: nat): Op
    requires g.Valid() && rank < g.size && c < Length(g, rank)
  {
    if SitsOut(g, rank) then if c == 0 then Send(Work, rank + 1) else if c == 1 then Recv(Result, rank + 1) else Free(Work)
    else if c < Lead(g, rank) then if c == 0 then Recv(Result, rank - 1) else Combine(Work, Result)
    else if c < RoundAt(g, rank, g.rounds) then RoundOp(g, rank, c - Lead(g, rank))
    else if Helps(g, rank) && c == RoundAt(g, rank, g.rounds) then Send(Work, rank - 1)
    else if c == Length(g, rank) - 2 then Copy(Result, Work)
    else Free(Work)
  }

  function Schedule(g: Grid, rank: nat): (ops: seq<Op>)
    requires g.Valid() && rank < g.size
    ensures |ops| == Length(g, rank)
  {
    seq(Length(g, rank), c requires 0 <= c < Length(g, rank) => OpOf(g, rank, c))
  }

  /** The schedule is built from what precedes the rounds, the rounds, and what follows them. */
  lemma ScheduleParts(g: Grid, rank: nat)
    requires g.Valid() && rank < g.size && !SitsOut(g, rank)
    ensures Schedule(g, rank) == Before(g, rank) + Rounds(g, rank, g.rounds) + After(g, rank)
  {
    var parts := Before(g, rank) + Rounds(g, rank, g.rounds) + After(g, rank);
    forall c | 0 <= c < Length(g, rank) ensures parts[c] == OpOf(g, rank, c) {
    }
  }

  lemma ScheduleSittingOut(g: Grid, rank: nat)
    requires g.Valid() && rank < g.size && SitsOut(g, rank)
    ensures Schedule(g, rank) == Before(g, rank) + After(g, rank)
  {
  }

  /** The schedule of any number of ranks that fits the program's int fits its array of 128 operations. */
  lemma ScheduleFits(size: nat, rank: nat)
    requires 1 <= size < Pow2(31) && rank < size
    ensures |Schedule(GridOf(size), rank)| <= 128
  {
    var g := GridOf(size);
    if g.rounds > 31 { Pow2Grows(31, g.rounds); }
  }

  /** The loops that build the schedule. */
  method BuildSchedule(size: nat, rank: nat) returns (next: seq<Op>)
    requires size >= 2 && rank < size
    ensures next == Schedule(GridOf(size), rank)
  {
    next := [];
    ghost var g := GridOf(size);
    if SitsOut(g, rank) { ScheduleSittingOut(g, rank); } else { ScheduleParts(g, rank); }
    var adjsize := NextPowerOfTwo(size) / 2;
    var extra := size - adjsize;
    var newrank := -1;
    if rank < 2 * extra {
      if rank % 2 == 0 {
        next := next + [Send(Work, rank + 1)];
      } else {
        next := next + [Recv(Result, rank - 1)];
        next := next + [Combine(Work, Result)];
        newrank := rank / 2;
      }
    } else {
      newrank := rank - extra;
    }
    if newrank >= 0 { next := BuildRounds(g, rank, newrank, adjsize, extra, next); }
    var inResult := false;
    if rank < 2 * extra {
      if rank % 2 == 0 {
        next := next + [Recv(Result, rank + 1)];
        inResult := true;
      } else {
        next := next + [Send(Work, rank - 1)];
      }
    }
    if !inResult { next := next + [Copy(Result, Work)]; }
    next := next + [Free(Work)];
  }

  /** The loop over the distances, for a rank that takes part. */
  method BuildRounds(ghost g: Grid, ghost rank: nat, newrank: nat, adjsize: nat, extra: nat, start: seq<Op>)
    returns (next: seq<Op>)
    requires g.Valid() && rank < g.size && !SitsOut(g, rank) && newrank == NewRank(g, rank)
    requires adjsize == Pow2(g.rounds) && extra == g.extra
    ensures next == start + Rounds(g, rank, g.rounds)
  {
    next := start;
    ghost var k := 0;
    var distance := 1;
    while distance < adjsize
      invariant 0 <= k <= g.rounds && distance == Pow2(k)
      invariant next == start + Rounds(g, rank, k)
      decreases g.rounds - k
    {
      XorIsFlip(newrank, k);
      FlipStaysBelow(newrank, k, g.rounds);
      var newremote := Xor(newrank, distance);
      var remote := if newremote < extra then newremote * 2 + 1 else newremote + extra;
      next := next + [SendRecv(Work, Result, remote)];
      next := next + [Combine(Work, Result)];
      RoundsGrow(g, rank, k);
      distance := distance * 2;
      k := k + 1;
    }
    if k < g.rounds { Pow2Grows(k, g.rounds); }
  }

  lemma RoundsGrow(g: Grid, rank: nat, k: nat)
    requires g.Valid() && rank < g.size && !SitsOut(g, rank) && k < g.rounds
    ensures Rounds(g, rank, k + 1) ==
      Rounds(g, rank, k) + [SendRecv(Work, Result, Partner(g, rank, k)), Combine(Work, Result)]
  {
  }

  // ----- What is freed -----

  lemma {:induction false} NothingFreed(ops: seq<Op>, c: nat)
    requires c <= |ops| && forall d :: 0 <= d < c ==> !ops[d].Free?
    ensures FreedBy(ops, c) == {}
  {
    if c > 0 { NothingFreed(ops, c - 1); }
  }

  /** The temporary buffer is freed by the last operation of every schedule, and nothing else is freed: so no operation
      touches a freed buffer, and the caller's result buffer is never freed. */
  lemma AllreduceFreesWork(g: Grid, rank: nat)
    requires g.Valid() && rank < g.size
    ensures FreesLast(Schedule(g, rank)) && FreedBy(Schedule(g, rank), |Schedule(g, rank)|) == {Work}
  {
    var ops := Schedule(g, rank);
    var n := |ops| - 1;
    forall d | 0 <= d < n ensures !ops[d].Free? { }
    forall c | 0 <= c < |ops| ensures TouchesNoneFreed(ops, c) { NothingFreed(ops, c); }
    NothingFreed(ops, n);
  }

  // ----- Each ordered pair of ranks exchanges at most one message -----

  datatype Place = First | Second | Exchange(k: nat) | Local | Final

  /** Which part of the schedule operation c belongs to. */
  function PlaceOf(g: Grid, rank: nat, c: nat): (p: Place)
    requires g.Valid() && rank < g.size && c < |Schedule(g, rank)|
    ensures p.Exchange? ==> !SitsOut(g, rank) && p.k < g.rounds && c == RoundAt(g, rank, p.k)
  {
    var l := g.rounds;
    if SitsOut(g, rank) then if c == 0 then First else if c == 1 then Final else Local
    else if c < Lead(g, rank) then if c == 0 then First else Local
    else if c < RoundAt(g, rank, l) then
      if (c - Lead(g, rank)) % 2 == 0 then Exchange((c - Lead(g, rank)) / 2) else Local
    else if c == RoundAt(g, rank, l) && Helps(g, rank) then Final
    else Local
  }

  /** The operation at each place. */
  lemma OpAt(g: Grid, rank: nat, c: nat)
    requires g.Valid() && rank < g.size && c < |Schedule(g, rank)|
    ensures var op := Schedule(g, rank)[c];
      match PlaceOf(g, rank, c)
      case First => op == if SitsOut(g, rank) then Send(Work, rank + 1) else Recv(Result, rank - 1)
      case Final => op == if SitsOut(g, rank) then Recv(Result, rank + 1) else Send(Work, rank - 1)
      case Exchange(k) => op == SendRecv(Work, Result, Partner(g, rank, k))
      case _ => !Communicates(op)
  {
  }

  lemma {:induction false} FirstSend(ops: seq<Op>, c: nat)
    requires c < |ops| && ops[c].Sends()
    requires forall d :: 0 <= d < c && ops[d].Sends() ==> ops[d].Target() != ops[c].Target()
    ensures SendIndex(ops, ops[c].Target()) == c
  {
    if c > 0 {
      assert ops[0].Sends() ==> ops[0].Target() != ops[c].Target();
      forall d | 0 <= d < c - 1 && ops[1..][d].Sends() ensures ops[1..][d].Target() != ops[c].Target() {
        assert ops[1..][d] == ops[d + 1];
      }
      FirstSend(ops[1..], c - 1);
    }
  }

  lemma {:induction false} FirstRecv(ops: seq<Op>, c: nat)
    requires c < |ops| && ops[c].Receives()
    requires forall d :: 0 <= d < c && ops[d].Receives() ==> ops[d].Origin() != ops[c].Origin()
    ensures RecvIndex(ops, ops[c].Origin()) == c
  {
    if c > 0 {
      assert ops[0].Receives() ==> ops[0].Origin() != ops[c].Origin();
      forall d | 0 <= d < c - 1 && ops[1..][d].Receives() ensures ops[1..][d].Origin() != ops[c].Origin() {
        assert ops[1..][d] == ops[d + 1];
      }
      FirstRecv(ops[1..], c - 1);
    }
  }

  /** Two communications of one schedule go to, or come from, different ranks. */
  lemma PeersDiffer(g: Grid, rank: nat, d: nat, c: nat)
    requires g.Valid() && rank < g.size && d < c < |Schedule(g, rank)|
    ensures var ops := Schedule(g, rank);
      && (ops[c].Sends() && ops[d].Sends() ==> ops[d].Target() != ops[c].Target())
      && (ops[c].Receives() && ops[d].Receives() ==> ops[d].Origin() != ops[c].Origin())
  {
    OpAt(g, rank, c);
    OpAt(g, rank, d);
    var pc, pd := PlaceOf(g, rank, c), PlaceOf(g, rank, d);
    if pc.Exchange? { PartnerInvolution(g, rank, pc.k); }
  }

  lemma AllreduceOncePerPeer(g: Grid, rank: nat)
    requires g.Valid() && rank < g.size
    ensures OncePerPeer(Schedule(g, rank))
  {
    var ops := Schedule(g, rank);
    forall c | 0 <= c < |ops| && ops[c].Sends() ensures SendIndex(ops, ops[c].Target()) == c {
      forall d | 0 <= d < c && ops[d].Sends() ensures ops[d].Target() != ops[c].Target() { PeersDiffer(g, rank, d, c); }
      FirstSend(ops, c);
    }
    forall c | 0 <= c < |ops| && ops[c].Receives() ensures RecvIndex(ops, ops[c].Origin()) == c {
      forall d | 0 <= d < c && ops[d].Receives() ensures ops[d].Origin() != ops[c].Origin() {
        PeersDiffer(g, rank, d, c);
      }
      FirstRecv(ops, c);
    }
  }

  function Schedules(g: Grid): (s: seq<seq<Op>>)
    requires g.Valid()
    ensures |s| == g.size
  {
    seq(g.size, rank requires 0 <= rank < g.size => Schedule(g, rank))
  }

  /** The rank on the other end of communication c, and where in its schedule the counterpart is. */
  function Peer(g: Grid, rank: nat, c: nat): nat
    requires g.Valid() && rank < g.size && c < |Schedule(g, rank)|
  {
    var p := PlaceOf(g, rank, c);
    if p.Exchange? then Partner(g, rank, p.k) else if SitsOut(g, rank) then rank + 1 else if rank > 0 then rank - 1 else 0
  }

  function Counterpart(g: Grid, rank: nat, c: nat): nat
    requires g.Valid() && rank < g.size && c < |Schedule(g, rank)|
  {
    var p := PlaceOf(g, rank, c);
    var peer := Peer(g, rank, c);
    if p.Exchange? then RoundAt(g, peer, p.k)
    else if p.First? then 0
    else if SitsOut(g, rank) then RoundAt(g, peer, g.rounds) else 1
  }

  lemma CounterpartMatches(g: Grid, rank: nat, c: nat)
    requires g.Valid() && rank < g.size && c < |Schedule(g, rank)| && Communicates(Schedule(g, rank)[c])
    ensures var op, peer, d := Schedule(g, rank)[c], Peer(g, rank, c), Counterpart(g, rank, c);
      && peer < g.size && peer != rank && d < |Schedule(g, peer)|
      && (op.Receives() ==> op.Origin() == peer && Schedule(g, peer)[d].Sends() && Schedule(g, peer)[d].Target() == rank)
      && (op.Sends() ==> op.Target() == peer && Schedule(g, peer)[d].Receives() && Schedule(g, peer)[d].Origin() == rank)
  {
    OpAt(g, rank, c);
    var p, peer := PlaceOf(g, rank, c), Peer(g, rank, c);
    if p.Exchange? {
      PartnerInvolution(g, rank, p.k);
    } else if SitsOut(g, rank) || Helps(g, rank) {
      OpAt(g, peer, Counterpart(g, rank, c));
    }
  }

  lemma CounterpartIndex(g: Grid, rank: nat, c: nat)
    requires g.Valid() && rank < g.size && c < |Schedule(g, rank)| && Communicates(Schedule(g, rank)[c])
    ensures var op, peer, d := Schedule(g, rank)[c], Peer(g, rank, c), Counterpart(g, rank, c);
      && peer < g.size && d < |Schedule(g, peer)|
      && (op.Receives() ==> SendIndex(Schedule(g, peer), rank) == d)
      && (op.Sends() ==> RecvIndex(Schedule(g, peer), rank) == d)
  {
    CounterpartMatches(g, rank, c);
    AllreduceOncePerPeer(g, Peer(g, rank, c));
  }

  lemma AllreduceMatched(g: Grid)
    requires g.Valid()
    ensures Matched(Schedules(g))
  {
    var sched := Schedules(g);
    forall i | 0 <= i < g.size ensures OncePerPeer(sched[i]) { AllreduceOncePerPeer(g, i); }
    forall i, c | 0 <= i < g.size && 0 <= c < |sched[i]| ensures MatchedOp(sched, i, c) {
      if Communicates(sched[i][c]) {
        CounterpartMatches(g, i, c);
        CounterpartIndex(g, i, c);
      }
    }
  }

  // ----- Time -----

  function StampOf(g: Grid, rank: nat, c: nat): nat {
    if SitsOut(g, rank) then if c == 0 then 0 else g.rounds + 1
    else if c < Lead(g, rank) then 0
    else if c < RoundAt(g, rank, g.rounds) then 1 + (c - Lead(g, rank)) / 2
    else g.rounds + 1
  }

  function Stamps(g: Grid): Stamp
    requires g.Valid()
  {
    (rank, c) => StampOf(g, rank, c)
  }

  lemma CounterpartStamp(g: Grid, rank: nat, c: nat)
    requires g.Valid() && rank < g.size && c < |Schedule(g, rank)| && Communicates(Schedule(g, rank)[c])
    ensures StampOf(g, Peer(g, rank, c), Counterpart(g, rank, c)) == StampOf(g, rank, c)
  {
    OpAt(g, rank, c);
    CounterpartMatches(g, rank, c);
  }

  lemma StampsGrow(g: Grid, rank: nat, d: nat, c: nat)
    requires g.Valid() && rank < g.size && d < c < |Schedule(g, rank)|
    requires Communicates(Schedule(g, rank)[c]) && Communicates(Schedule(g, rank)[d])
    ensures StampOf(g, rank, d) < StampOf(g, rank, c)
  {
    OpAt(g, rank, c);
    OpAt(g, rank, d);
  }

  lemma AllreduceStamped(g: Grid)
    requires g.Valid()
    ensures Matched(Schedules(g)) && Stamped(Schedules(g), Stamps(g))
  {
    AllreduceMatched(g);
    var sched := Schedules(g);
    forall i, c | 0 <= i < g.size && 0 <= c < |sched[i]| ensures StampedOp(sched, Stamps(g), i, c) {
      if Communicates(sched[i][c]) {
        CounterpartMatches(g, i, c);
        CounterpartIndex(g, i, c);
        CounterpartStamp(g, i, c);
        forall d | 0 <= d < c && Communicates(sched[i][d]) ensures Stamps(g)(i, d) < Stamps(g)(i, c) {
          StampsGrow(g, i, d, c);
        }
      }
    }
  }
}
