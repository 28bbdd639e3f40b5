/** What recursive-doubling allreduce computes: every rank ends with the fold of all inputs, whatever the number of
    ranks and however their steps interleave. */
module AllreduceValue {
  import opened ColEngine
  import opened Allreduce
  import S = ColSeries

  // ----- Folds -----

  ghost predicate Reassociates<V(!new)>(f: (V, V) -> V, a: V, b: V, c: V) {
    f(f(a, b), c) == f(a, f(b, c))
  }

  ghost predicate Commutes<V(!new)>(f: (V, V) -> V, a: V, b: V) {
    f(a, b) == f(b, a)
  }

  ghost predicate Associative<V(!new)>(f: (V, V) -> V) {
    forall a, b, c :: Reassociates(f, a, b, c)
  }

  ghost predicate Commutative<V(!new)>(f: (V, V) -> V) {
    forall a, b :: Commutes(f, a, b)
  }

  /** f combined over the values at lo, lo + 1, ..., lo + count - 1. */
  function Fold<V>(f: (V, V) -> V, at: nat -> V, lo: nat, count: nat): V
    requires count >= 1
    decreases count
  {
    if count == 1 then at(lo) else f(at(lo), Fold(f, at, lo + 1, count - 1))
  }

  lemma {:induction false} FoldSplit<V(!new)>(f: (V, V) -> V, at: nat -> V, lo: nat, a: nat, b: nat)
    requires Associative(f) && a >= 1 && b >= 1
    ensures Fold(f, at, lo, a + b) == f(Fold(f, at, lo, a), Fold(f, at, lo + a, b))
    decreases a
  {
    if a > 1 {
      FoldSplit(f, at, lo + 1, a - 1, b);
      assert Reassociates(f, at(lo), Fold(f, at, lo + 1, a - 1), Fold(f, at, lo + a, b));
    }
  }

  // ----- Blocks of new ranks -----

  /** First rank of the aligned block of 2 to the k ranks that n is in. */
  function BlockStart(n: nat, k: nat): (b: nat)
    ensures b <= n
  {
    if k == 0 then n else 2 * BlockStart(n / 2, k - 1)
  }

  lemma {:induction false} BlocksMeet(n: nat, k: nat)
    ensures var b, b', all := BlockStart(n, k), BlockStart(Flip(n, k), k), BlockStart(n, k + 1);
      (b == all && b' == all + Pow2(k)) || (b' == all && b == all + Pow2(k))
  {
    if k > 0 {
      BlocksMeet(n / 2, k - 1);
      assert Flip(n, k) / 2 == Flip(n / 2, k - 1);
    }
  }

  lemma {:induction false} WholeBlock(n: nat, k: nat)
    requires n < Pow2(k)
    ensures BlockStart(n, k) == 0
  {
    if k > 0 { WholeBlock(n / 2, k - 1); }
  }

  // ----- Values -----

  datatype Problem<!V> = Problem(g: Grid, combine: (V, V) -> V, inputs: seq<V>, before: seq<V>) {
    ghost predicate Valid() {
      g.Valid() && g.size >= 2 && |inputs| == |before| == g.size
    }
  }

  function Input<V>(p: Problem<V>, rank: nat): V
    requires |p.inputs| > 0
  {
    if rank < |p.inputs| then p.inputs[rank] else p.inputs[0]
  }

  /** The value new rank n starts the rounds with. */
  function NewInput<V>(p: Problem<V>, n: nat): V
    requires p.g.Valid() && |p.inputs| > 0
  {
    if n < p.g.extra then p.combine(Input(p, 2 * n + 1), Input(p, 2 * n)) else Input(p, n + p.g.extra)
  }

  /** The value new rank n has after k rounds. */
  function After<V>(p: Problem<V>, n: nat, k: nat): V
    requires p.g.Valid() && |p.inputs| > 0
    decreases k
  {
    if k == 0 then NewInput(p, n) else p.combine(After(p, n, k - 1), After(p, Flip(n, k - 1), k - 1))
  }

  function NewInputs<V>(p: Problem<V>): nat -> V
    requires p.g.Valid() && |p.inputs| > 0
  {
    (n: nat) => NewInput(p, n)
  }

  function Inputs<V>(p: Problem<V>): nat -> V
    requires |p.inputs| > 0
  {
    (rank: nat) => Input(p, rank)
  }

  /** One round joins two blocks. */
  lemma JoinBlocks<V(!new)>(p: Problem<V>, n: nat, k: nat)
    requires p.Valid() && Associative(p.combine) && Commutative(p.combine)
    requires After(p, n, k) == Fold(p.combine, NewInputs(p), BlockStart(n, k), Pow2(k))
    requires After(p, Flip(n, k), k) == Fold(p.combine, NewInputs(p), BlockStart(Flip(n, k), k), Pow2(k))
    ensures After(p, n, k + 1) == Fold(p.combine, NewInputs(p), BlockStart(n, k + 1), Pow2(k + 1))
  {
    BlocksMeet(n, k);
    FoldSplit(p.combine, NewInputs(p), BlockStart(n, k + 1), Pow2(k), Pow2(k));
    assert Commutes(p.combine, After(p, n, k), After(p, Flip(n, k), k));
  }

  /** After round k a rank holds the fold of its aligned block. */
  lemma {:induction false} AfterIsBlockFold<V(!new)>(p: Problem<V>, n: nat, k: nat)
    requires p.Valid() && Associative(p.combine) && Commutative(p.combine)
    ensures After(p, n, k) == Fold(p.combine, NewInputs(p), BlockStart(n, k), Pow2(k))
    decreases k
  {
    if k > 0 {
      AfterIsBlockFold(p, n, k - 1);
      AfterIsBlockFold(p, Flip(n, k - 1), k - 1);
      JoinBlocks(p, n, k - 1);
    }
  }

  lemma FoldOfTwo<V>(f: (V, V) -> V, at: nat -> V, lo: nat)
    ensures Fold(f, at, lo, 2) == f(at(lo), at(lo + 1))
  {
    assert Fold(f, at, lo + 1, 1) == at(lo + 1);
  }

  lemma NewFoldPair<V(!new)>(p: Problem<V>, m: nat)
    requires p.Valid() && Associative(p.combine) && Commutative(p.combine) && 1 < m <= p.g.extra
    requires Fold(p.combine, NewInputs(p), 0, m - 1) == Fold(p.combine, Inputs(p), 0, 2 * (m - 1))
    ensures Fold(p.combine, NewInputs(p), 0, m) == Fold(p.combine, Inputs(p), 0, 2 * m)
  {
    FoldSplit(p.combine, NewInputs(p), 0, m - 1, 1);
    FoldSplit(p.combine, Inputs(p), 0, 2 * (m - 1), 2);
    FoldOfTwo(p.combine, Inputs(p), 2 * (m - 1));
    assert Commutes(p.combine, Input(p, 2 * m - 1), Input(p, 2 * m - 2));
  }

  lemma NewFoldSingle<V(!new)>(p: Problem<V>, m: nat)
    requires p.Valid() && Associative(p.combine) && p.g.extra < m && 1 < m
    requires Fold(p.combine, NewInputs(p), 0, m - 1) == Fold(p.combine, Inputs(p), 0, m - 1 + p.g.extra)
    ensures Fold(p.combine, NewInputs(p), 0, m) == Fold(p.combine, Inputs(p), 0, m + p.g.extra)
  {
    FoldSplit(p.combine, NewInputs(p), 0, m - 1, 1);
    FoldSplit(p.combine, Inputs(p), 0, m - 1 + p.g.extra, 1);
  }

  /** Folding the first m new inputs folds the inputs behind them. */
  lemma {:induction false} NewFold<V(!new)>(p: Problem<V>, m: nat)
    requires p.Valid() && Associative(p.combine) && Commutative(p.combine) && 1 <= m
    ensures var e := p.g.extra;
      Fold(p.combine, NewInputs(p), 0, m) == Fold(p.combine, Inputs(p), 0, if m <= e then 2 * m else m + e)
  {
    if m == 1 {
      FoldOfTwo(p.combine, Inputs(p), 0);
      assert Commutes(p.combine, Input(p, 1), Input(p, 0));
    } else {
      NewFold(p, m - 1);
      if m <= p.g.extra { NewFoldPair(p, m); } else { NewFoldSingle(p, m); }
    }
  }

  /** What every rank is to end with. */
  function Total<V>(p: Problem<V>): V
    requires p.g.Valid() && |p.inputs| > 0
  {
    Fold(p.combine, Inputs(p), 0, p.g.size)
  }

  lemma AfterAllRounds<V(!new)>(p: Problem<V>, n: nat)
    requires p.Valid() && Associative(p.combine) && Commutative(p.combine) && n < Pow2(p.g.rounds)
    ensures After(p, n, p.g.rounds) == Total(p)
  {
    AfterIsBlockFold(p, n, p.g.rounds);
    WholeBlock(n, p.g.rounds);
    NewFold(p, Pow2(p.g.rounds));
  }

  // ----- The buffers of a rank that never waits -----

  /** What operation c of a rank receives, if it receives. */
  function Incoming<V>(p: Problem<V>, rank: nat, c: nat): V
    requires p.g.Valid() && |p.inputs| > 0 && rank < p.g.size && c < |Schedule(p.g, rank)|
  {
    match PlaceOf(p.g, rank, c)
    case First => Input(p, if rank > 0 then rank - 1 else 0)
    case Exchange(k) => After(p, Flip(NewRank(p.g, rank), k), k)
    case Final => After(p, rank / 2, p.g.rounds)
    case _ => Input(p, rank)
  }

  /** A schedule on its own: its operations, the buffers it starts with, and what each operation is to receive. */
  datatype Script<!V> = Script(combine: (V, V) -> V, ops: seq<Op>, start: Buffers<V>, incoming: nat -> V)

  /** The buffers after the first c operations. */
  function Evaluate<V>(script: Script<V>, c: nat): Buffers<V>
    requires c <= |script.ops|
    decreases c
  {
    if c == 0 then script.start
    else Apply(script.combine, script.ops[c - 1], Evaluate(script, c - 1), script.incoming(c - 1))
  }

  function IncomingOf<V>(p: Problem<V>, rank: nat): nat -> V
    requires p.g.Valid() && |p.inputs| > 0 && rank < p.g.size
  {
    (c: nat) => if c < |Schedule(p.g, rank)| then Incoming(p, rank, c) else Input(p, rank)
  }

  function ScriptOf<V>(p: Problem<V>, rank: nat): (s: Script<V>)
    requires p.g.Valid() && |p.inputs| == |p.before| == p.g.size && rank < p.g.size
  {
    Script(p.combine, Schedule(p.g, rank), Buffers(p.inputs[rank], p.before[rank], {}), IncomingOf(p, rank))
  }

  function BuffersAt<V>(p: Problem<V>, rank: nat, c: nat): Buffers<V>
    requires p.g.Valid() && |p.inputs| == |p.before| == p.g.size && rank < p.g.size && c <= |Schedule(p.g, rank)|
  {
    Evaluate(ScriptOf(p, rank), c)
  }

  function IdealOf<V>(p: Problem<V>): Ideal<V>
    requires p.g.Valid() && |p.inputs| == |p.before| == p.g.size
  {
    (rank: nat, c: nat) => if rank < p.g.size && c <= |Schedule(p.g, rank)| then BuffersAt(p, rank, c) else BuffersAt(p, 0, 0)
  }

  function PlanOf<V>(p: Problem<V>): Plan<V>
    requires p.g.Valid()
  {
    Plan(p.combine, Schedules(p.g))
  }

  lemma LeadWork<V>(p: Problem<V>, rank: nat)
    requires p.Valid() && rank < p.g.size && !SitsOut(p.g, rank)
    ensures Lead(p.g, rank) <= |Schedule(p.g, rank)|
    ensures BuffersAt(p, rank, Lead(p.g, rank)).work == NewInput(p, NewRank(p.g, rank))
  {
    if Helps(p.g, rank) {
      OpAt(p.g, rank, 0);
      assert BuffersAt(p, rank, 1) == Buffers(p.inputs[rank], p.inputs[rank - 1], {});
      assert Schedule(p.g, rank)[1] == Combine(Work, Result);
      assert BuffersAt(p, rank, 2).work == p.combine(p.inputs[rank], p.inputs[rank - 1]);
    }
  }

  /** Operations c and c + 1 are an exchange that receives v and a combination. */
  ghost predicate IsRound<V>(script: Script<V>, c: nat, v: V) {
    && c + 2 <= |script.ops|
    && script.ops[c].SendRecv? && script.ops[c].dst == Result && script.ops[c + 1] == Combine(Work, Result)
    && script.incoming(c) == v
  }

  lemma RoundCombines<V>(script: Script<V>, c: nat, v: V)
    requires IsRound(script, c, v)
    ensures Evaluate(script, c + 2).work == script.combine(Evaluate(script, c).work, v)
  {
    assert Evaluate(script, c + 1) == Evaluate(script, c).Set(Result, v);
  }

  /** From operation `base` on there are `rounds` rounds, which bring a rank from each of its own values to the next. */
  ghost predicate AreRounds<V>(script: Script<V>, base: nat, own: nat -> V, other: nat -> V, rounds: nat) {
    forall j: nat :: j < rounds ==> Advances(script, base, own, other, j)
  }

  ghost predicate Advances<V>(script: Script<V>, base: nat, own: nat -> V, other: nat -> V, j: nat) {
    IsRound(script, base + 2 * j, other(j)) && own(j + 1) == script.combine(own(j), other(j))
  }

  lemma {:induction false} RoundsCombine<V>(script: Script<V>, base: nat, own: nat -> V, other: nat -> V, rounds: nat, k: nat)
    requires AreRounds(script, base, own, other, rounds) && k <= rounds
    requires base <= |script.ops| && Evaluate(script, base).work == own(0)
    ensures base + 2 * k <= |script.ops| && Evaluate(script, base + 2 * k).work == own(k)
  {
    if k > 0 {
      RoundsCombine(script, base, own, other, rounds, k - 1);
      assert Advances(script, base, own, other, k - 1);
      RoundCombines(script, base + 2 * (k - 1), other(k - 1));
    }
  }

  lemma RoundOps(g: Grid, rank: nat, k: nat)
    requires g.Valid() && rank < g.size && !SitsOut(g, rank) && k < g.rounds
    ensures var c := RoundAt(g, rank, k);
      && c + 2 <= |Schedule(g, rank)|
      && Schedule(g, rank)[c] == SendRecv(Work, Result, Partner(g, rank, k))
      && Schedule(g, rank)[c + 1] == Combine(Work, Result)
  {
  }

  lemma RoundPlace(g: Grid, rank: nat, k: nat)
    requires g.Valid() && rank < g.size && !SitsOut(g, rank) && k < g.rounds
    requires RoundAt(g, rank, k) < |Schedule(g, rank)|
    ensures PlaceOf(g, rank, RoundAt(g, rank, k)) == Exchange(k)
  {
    assert (RoundAt(g, rank, k) - Lead(g, rank)) == 2 * k;
  }

  lemma RoundIncoming<V>(p: Problem<V>, rank: nat, k: nat)
    requires p.Valid() && rank < p.g.size && !SitsOut(p.g, rank) && k < p.g.rounds
    ensures RoundAt(p.g, rank, k) < |Schedule(p.g, rank)|
    ensures Incoming(p, rank, RoundAt(p.g, rank, k)) == After(p, Flip(NewRank(p.g, rank), k), k)
  {
    RoundOps(p.g, rank, k);
    RoundPlace(p.g, rank, k);
  }

  lemma RoundIs<V>(p: Problem<V>, rank: nat, k: nat)
    requires p.Valid() && rank < p.g.size && !SitsOut(p.g, rank) && k < p.g.rounds
    ensures IsRound(ScriptOf(p, rank), Lead(p.g, rank) + 2 * k, After(p, Flip(NewRank(p.g, rank), k), k))
  {
    RoundOps(p.g, rank, k);
    RoundIncoming(p, rank, k);
  }

  /** The values new rank n and its partners hold, round by round. */
  function OwnValues<V>(p: Problem<V>, n: nat): nat -> V
    requires p.g.Valid() && |p.inputs| > 0
  {
    (k: nat) => After(p, n, k)
  }

  function PartnerValues<V>(p: Problem<V>, n: nat): nat -> V
    requires p.g.Valid() && |p.inputs| > 0
  {
    (k: nat) => After(p, Flip(n, k), k)
  }

  lemma RoundsAre<V>(p: Problem<V>, rank: nat)
    requires p.Valid() && rank < p.g.size && !SitsOut(p.g, rank)
    ensures var n := NewRank(p.g, rank);
      AreRounds(ScriptOf(p, rank), Lead(p.g, rank), OwnValues(p, n), PartnerValues(p, n), p.g.rounds)
  {
    var own, other := OwnValues(p, NewRank(p.g, rank)), PartnerValues(p, NewRank(p.g, rank));
    forall j: nat | j < p.g.rounds
      ensures Advances(ScriptOf(p, rank), Lead(p.g, rank), own, other, j)
    {
      RoundIs(p, rank, j);
    }
  }

  lemma RoundValue<V>(p: Problem<V>, script: Script<V>, base: nat, n: nat, k: nat)
    requires p.Valid() && AreRounds(script, base, OwnValues(p, n), PartnerValues(p, n), p.g.rounds) && k <= p.g.rounds
    requires base <= |script.ops| && Evaluate(script, base).work == After(p, n, 0)
    ensures base + 2 * k <= |script.ops| && Evaluate(script, base + 2 * k).work == After(p, n, k)
  {
    RoundsCombine(script, base, OwnValues(p, n), PartnerValues(p, n), p.g.rounds, k);
  }

  /** Between rounds a rank that takes part holds the value of its new rank. */
  lemma RoundWork<V>(p: Problem<V>, rank: nat, k: nat)
    requires p.Valid() && rank < p.g.size && !SitsOut(p.g, rank) && k <= p.g.rounds
    ensures RoundAt(p.g, rank, k) <= |Schedule(p.g, rank)|
    ensures BuffersAt(p, rank, RoundAt(p.g, rank, k)).work == After(p, NewRank(p.g, rank), k)
  {
    LeadWork(p, rank);
    RoundsAre(p, rank);
    RoundValue(p, ScriptOf(p, rank), Lead(p.g, rank), NewRank(p.g, rank), k);
  }

  lemma FinalBuffers<V>(p: Problem<V>, rank: nat)
    requires p.Valid() && rank < p.g.size
    ensures var n := if SitsOut(p.g, rank) then rank / 2 else NewRank(p.g, rank);
      BuffersAt(p, rank, |Schedule(p.g, rank)|).result == After(p, n, p.g.rounds)
  {
    var c := RoundAt(p.g, rank, p.g.rounds);
    var ops := Schedule(p.g, rank);
    if SitsOut(p.g, rank) {
      assert BuffersAt(p, rank, 2).result == Incoming(p, rank, 1);
    } else {
      RoundWork(p, rank, p.g.rounds);
      assert BuffersAt(p, rank, c + 1).work == BuffersAt(p, rank, c).work;
      if Helps(p.g, rank) {
          assert BuffersAt(p, rank, c + 2).result == BuffersAt(p, rank, c + 1).work;
      }
    }
  }

  lemma ExchangeSends<V>(p: Problem<V>, rank: nat, k: nat)
    requires p.Valid() && rank < p.g.size && !SitsOut(p.g, rank) && k < p.g.rounds
    ensures var o := Partner(p.g, rank, k);
      && RoundAt(p.g, o, k) <= |Schedule(p.g, o)|
      && BuffersAt(p, o, RoundAt(p.g, o, k)).work == After(p, Flip(NewRank(p.g, rank), k), k)
  {
    FlipStaysBelow(NewRank(p.g, rank), k, p.g.rounds);
    RankBijection(p.g, rank, Flip(NewRank(p.g, rank), k));
    RoundWork(p, Partner(p.g, rank, k), k);
  }

  lemma FinalSends<V>(p: Problem<V>, rank: nat)
    requires p.Valid() && rank < p.g.size && SitsOut(p.g, rank)
    ensures rank + 1 < p.g.size && Helps(p.g, rank + 1) && RoundAt(p.g, rank + 1, p.g.rounds) <= |Schedule(p.g, rank + 1)|
    ensures BuffersAt(p, rank + 1, RoundAt(p.g, rank + 1, p.g.rounds)).work == After(p, rank / 2, p.g.rounds)
  {
    RoundWork(p, rank + 1, p.g.rounds);
  }

  /** The counterpart of every receive sends what the receiver expects. */
  lemma CounterpartSends<V>(p: Problem<V>, rank: nat, c: nat)
    requires p.Valid() && rank < p.g.size && c < |Schedule(p.g, rank)| && Schedule(p.g, rank)[c].Receives()
    ensures var o, d := Peer(p.g, rank, c), Counterpart(p.g, rank, c);
      o < p.g.size && d < |Schedule(p.g, o)| && BuffersAt(p, o, d).work == Incoming(p, rank, c)
  {
    CounterpartMatches(p.g, rank, c);
    OpAt(p.g, rank, c);
    match PlaceOf(p.g, rank, c)
    case Exchange(k) => ExchangeSends(p, rank, k);
    case Final => FinalSends(p, rank);
    case _ =>
  }

  lemma SendsWork(g: Grid, rank: nat, c: nat)
    requires g.Valid() && rank < g.size && c < |Schedule(g, rank)| && Schedule(g, rank)[c].Sends()
    ensures Schedule(g, rank)[c].src == Work
  {
    OpAt(g, rank, c);
  }

  /** Every message carries what its receiver expects. */
  lemma MessageIsIncoming<V>(p: Problem<V>, rank: nat, c: nat)
    requires p.Valid() && rank < p.g.size && c < |Schedule(p.g, rank)| && Schedule(p.g, rank)[c].Receives()
    ensures var o := Schedule(p.g, rank)[c].Origin();
      && o < p.g.size && SendIndex(Schedule(p.g, o), rank) < |Schedule(p.g, o)|
      && Message(PlanOf(p), IdealOf(p), o, rank) == Incoming(p, rank, c)
  {
    CounterpartMatches(p.g, rank, c);
    CounterpartIndex(p.g, rank, c);
    CounterpartSends(p, rank, c);
    SendsWork(p.g, Peer(p.g, rank, c), Counterpart(p.g, rank, c));
  }

  lemma ExplainsAt<V(!new)>(p: Problem<V>, rank: nat, c: nat)
    requires p.Valid() && rank < p.g.size && c < |Schedule(p.g, rank)|
    ensures ExplainsOp(PlanOf(p), IdealOf(p), rank, c)
  {
    var op := Schedule(p.g, rank)[c];
    IdealIs(p, rank, c);
    IdealIs(p, rank, c + 1);
    if op.Receives() { MessageIsIncoming(p, rank, c); }
  }

  lemma IdealIs<V>(p: Problem<V>, rank: nat, c: nat)
    requires p.Valid() && rank < p.g.size && c <= |Schedule(p.g, rank)|
    ensures IdealOf(p)(rank, c) == BuffersAt(p, rank, c)
  {
  }

  lemma AllreduceExplains<V(!new)>(p: Problem<V>)
    requires p.Valid()
    ensures Explains(PlanOf(p), IdealOf(p))
  {
    forall i, c | 0 <= i < p.g.size && 0 <= c < |PlanOf(p).sched[i]| ensures ExplainsOp(PlanOf(p), IdealOf(p), i, c) {
      ExplainsAt(p, i, c);
    }
  }

  // ----- Main results -----

  /** Every rank has its input in the temporary buffer and an untouched request. */
  ghost predicate Begins<V>(p: Problem<V>, s: State<V>)
    requires p.Valid()
  {
    && Initial(PlanOf(p), s)
    && forall i :: 0 <= i < |s.ranks| ==> s.ranks[i].bufs == Buffers(p.inputs[i], p.before[i], {})
  }

  lemma BeginsIdeal<V>(p: Problem<V>, s: State<V>)
    requires p.Valid() && Begins(p, s)
    ensures Starts(PlanOf(p), IdealOf(p), s)
  {
  }

  /** In every run, a rank whose request is flagged has the fold of all inputs in its result buffer. */
  lemma AllreduceValue<V(!new)>(p: Problem<V>, s: State<V>, events: seq<Event>, t: State<V>, i: nat)
    requires p.Valid() && Associative(p.combine) && Commutative(p.combine)
    requires Begins(p, s) && Run(PlanOf(p), s, events, t) && i < |t.ranks| == p.g.size && t.ranks[i].flag
    ensures t.ranks[i].bufs.result == Total(p)
  {
    BeginsIdeal(p, s);
    AllreduceExplains(p);
    AllreduceMatched(p.g);
    FinishedIsIdeal(PlanOf(p), IdealOf(p), s, events, t, i);
    FinalBuffers(p, i);
    AfterAllRounds(p, if SitsOut(p.g, i) then i / 2 else NewRank(p.g, i));
  }

  /** Of two ranks each puts its own value first, so they end with the same exactly if those two values commute. */
  lemma TwoRanks<V(!new)>(p: Problem<V>, s: State<V>, events: seq<Event>, t: State<V>)
    requires p.Valid() && p.g.size == 2
    requires Begins(p, s) && Run(PlanOf(p), s, events, t) && Finished(t) && |t.ranks| == 2
    ensures forall i :: 0 <= i < 2 ==> t.ranks[i].bufs.result == p.combine(p.inputs[i], p.inputs[1 - i])
    ensures t.ranks[0].bufs.result == t.ranks[1].bufs.result <==> Commutes(p.combine, p.inputs[0], p.inputs[1])
  {
    BeginsIdeal(p, s);
    AllreduceExplains(p);
    AllreduceMatched(p.g);
    forall i | 0 <= i < 2 ensures t.ranks[i].bufs.result == p.combine(p.inputs[i], p.inputs[1 - i]) {
      FinishedIsIdeal(PlanOf(p), IdealOf(p), s, events, t, i);
      FinalBuffers(p, i);
      TwoRanksGrid(p, i);
    }
  }

  lemma TwoRanksGrid<V>(p: Problem<V>, i: nat)
    requires p.Valid() && p.g.size == 2 && i < 2
    ensures !SitsOut(p.g, i) && NewRank(p.g, i) == i && p.g.rounds == 1
    ensures After(p, i, 1) == p.combine(p.inputs[i], p.inputs[1 - i])
  {
    if p.g.rounds > 1 { Pow2Grows(1, p.g.rounds); }
  }

  /** In every run no event touches a freed buffer, and a rank whose request is flagged has freed its temporary buffer and
      not the result. */
  lemma AllreduceFrees<V(!new)>(p: Problem<V>, s: State<V>, events: seq<Event>, t: State<V>, i: nat)
    requires p.Valid() && Begins(p, s) && Run(PlanOf(p), s, events, t) && i < |t.ranks| == p.g.size
    ensures forall e: Event :: e.rank == i && Enabled(PlanOf(p), t, e) ==>
      TouchedBy(PlanOf(p), t, e) !! t.ranks[i].bufs.freed
    ensures t.ranks[i].flag ==> t.ranks[i].bufs.freed == {Work}
  {
    BeginsIdeal(p, s);
    AllreduceExplains(p);
    AllreduceMatched(p.g);
    AllreduceFreesWork(p.g, i);
    forall e: Event | e.rank == i && Enabled(PlanOf(p), t, e) ensures TouchedBy(PlanOf(p), t, e) !! t.ranks[i].bufs.freed {
      NoUseAfterFree(PlanOf(p), IdealOf(p), s, events, t, e);
    }
    if t.ranks[i].flag {
      FinishedIsIdeal(PlanOf(p), IdealOf(p), s, events, t, i);
      IdealFreed(PlanOf(p), IdealOf(p), i, |Schedule(p.g, i)|);
    }
  }

  /** In every run, a rank that takes part and is between rounds k - 1 and k holds the fold of its block of 2^k new
      ranks. */
  lemma BlockAfterRound<V(!new)>(p: Problem<V>, s: State<V>, events: seq<Event>, t: State<V>, i: nat, k: nat)
    requires p.Valid() && Associative(p.combine) && Commutative(p.combine)
    requires Begins(p, s) && Run(PlanOf(p), s, events, t) && i < |t.ranks| == p.g.size && !SitsOut(p.g, i)
    requires k <= p.g.rounds && t.ranks[i].cur == RoundAt(p.g, i, k) && t.ranks[i].Idle()
    ensures t.ranks[i].bufs.work ==
      Fold(p.combine, NewInputs(p), BlockStart(NewRank(p.g, i), k), Pow2(k))
  {
    BeginsIdeal(p, s);
    AllreduceExplains(p);
    AllreduceMatched(p.g);
    InitialInv(PlanOf(p), IdealOf(p), s);
    RunKeepsInv(PlanOf(p), IdealOf(p), s, events, t);
    assert RankOk(PlanOf(p).sched[i], IdealOf(p), i, t.ranks[i]);
    RoundWork(p, i, k);
    AfterIsBlockFold(p, NewRank(p.g, i), k);
  }

  /** No run gets stuck before all ranks are flagged, even if no send completes before its receive is posted, and no run
      takes more steps than the schedules allow. */
  lemma AllreduceTerminates<V(!new)>(p: Problem<V>, s: State<V>, events: seq<Event>, t: State<V>)
    requires p.Valid() && Begins(p, s) && Run(PlanOf(p), s, events, t)
    ensures Finished(t) || exists e :: Ready(PlanOf(p), t, e)
    ensures |events| <= AllLeft(Schedules(p.g), s.ranks)
  {
    BeginsIdeal(p, s);
    AllreduceExplains(p);
    AllreduceStamped(p.g);
    InitialInv(PlanOf(p), IdealOf(p), s);
    NeverStuck(PlanOf(p), IdealOf(p), Stamps(p.g), s, events, t);
    RunUsesUp(PlanOf(p), IdealOf(p), s, events, t);
  }

  // ----- One allreduce after another on one tag -----

  /** Number n of a series solves problem n; all problems are for the same ranks. */
  ghost predicate SameRanks<V(!new)>(problems: nat -> Problem<V>) {
    forall n: nat :: problems(n).Valid() && problems(n).g == problems(0).g
  }

  ghost function SeriesOf<V(!new)>(problems: nat -> Problem<V>): S.Series<V>
    requires SameRanks(problems)
  {
    S.Series((n: nat) => PlanOf(problems(n)),
             (n: nat, i: nat) => var rank := if i < problems(n).g.size then i else 0;
                                 Buffers(problems(n).inputs[rank], problems(n).before[rank], {}),
             (n: nat) => IdealOf(problems(n)))
  }

  lemma SeriesValid<V(!new)>(problems: nat -> Problem<V>)
    requires SameRanks(problems)
    ensures S.Valid(SeriesOf(problems)) && SeriesOf(problems).Sched() == Schedules(problems(0).g)
  {
    AllreduceMatched(problems(0).g);
    forall n: nat ensures S.ValidAt(SeriesOf(problems), n) {
      AllreduceExplains(problems(n));
      assert problems(n).Valid() && problems(n).g == problems(0).g;
    }
  }

  /** In every run of allreduces one after another, a rank whose request of number n is flagged has the fold of all
      inputs of number n in its result buffer, whatever numbers the other ranks are at. */
  lemma EveryAllreduceValue<V(!new)>(problems: nat -> Problem<V>, s: S.Net<V>, events: seq<S.Event>, t: S.Net<V>, i: nat)
    requires SameRanks(problems) && S.Begins(SeriesOf(problems), s) && S.Goes(SeriesOf(problems), s, events, t)
    requires i < |t.turn| == |t.now.ranks| == problems(0).g.size && t.now.ranks[i].flag
    requires Associative(problems(t.turn[i]).combine) && Commutative(problems(t.turn[i]).combine)
    ensures t.now.ranks[i].bufs.result == Total(problems(t.turn[i]))
  {
    var p := problems(t.turn[i]);
    assert p.Valid() && p.g == problems(0).g;
    SeriesValid(problems);
    S.SeriesIsIdeal(SeriesOf(problems), s, events, t, i);
    FinalBuffers(p, i);
    AfterAllRounds(p, if SitsOut(p.g, i) then i / 2 else NewRank(p.g, i));
  }

  /** And no event touches a freed buffer; a flagged rank has freed the temporary buffer of that number and not the
      result. */
  lemma EveryAllreduceFrees<V(!new)>(problems: nat -> Problem<V>, s: S.Net<V>, events: seq<S.Event>, t: S.Net<V>, i: nat)
    requires SameRanks(problems) && S.Begins(SeriesOf(problems), s) && S.Goes(SeriesOf(problems), s, events, t)
    requires i < |t.turn| == |t.now.ranks| == problems(0).g.size
    ensures forall e: Event :: e.rank == i && S.MayHappen(SeriesOf(problems), t, S.Inner(e)) ==>
      TouchedBy(SeriesOf(problems).plan(t.turn[i]), t.now, e) !! t.now.ranks[i].bufs.freed
    ensures t.now.ranks[i].flag ==> t.now.ranks[i].bufs.freed == {Work}
  {
    var p := problems(t.turn[i]);
    assert p.Valid() && p.g == problems(0).g;
    SeriesValid(problems);
    AllreduceFreesWork(p.g, i);
    forall e: Event | e.rank == i && S.MayHappen(SeriesOf(problems), t, S.Inner(e))
      ensures TouchedBy(SeriesOf(problems).plan(t.turn[i]), t.now, e) !! t.now.ranks[i].bufs.freed
    {
      S.SeriesNoUseAfterFree(SeriesOf(problems), s, events, t, e);
    }
    if t.now.ranks[i].flag {
      S.SeriesIsIdeal(SeriesOf(problems), s, events, t, i);
      AllreduceExplains(p);
      IdealFreed(PlanOf(p), IdealOf(p), i, |Schedule(p.g, i)|);
    }
  }

  /** And it never gets stuck: something can happen until all ranks have finished the same number. */
  lemma EveryAllreduceMoves<V(!new)>(problems: nat -> Problem<V>, s: S.Net<V>, events: seq<S.Event>, t: S.Net<V>)
    requires SameRanks(problems) && S.Begins(SeriesOf(problems), s) && S.Goes(SeriesOf(problems), s, events, t)
    ensures S.Moves(SeriesOf(problems), t) || S.AllFinished(t)
  {
    SeriesValid(problems);
    AllreduceStamped(problems(0).g);
    S.SeriesNeverStuck(SeriesOf(problems), Stamps(problems(0).g), s, events, t);
  }

  /** And between two collectives there is only so much to do: a run is bounded by the numbers its ranks have come to. */
  lemma EveryAllreduceBounded<V(!new)>(problems: nat -> Problem<V>, s: S.Net<V>, events: seq<S.Event>, t: S.Net<V>)
    requires SameRanks(problems) && S.Begins(SeriesOf(problems), s) && S.Goes(SeriesOf(problems), s, events, t)
    ensures |t.turn| == |SeriesOf(problems).Sched()|
    ensures |events| <= S.AllAllowed(SeriesOf(problems).Sched(), t.turn)
  {
    SeriesValid(problems);
    forall n: nat ensures SeriesOf(problems).plan(n).sched == SeriesOf(problems).Sched() {
      assert S.ValidAt(SeriesOf(problems), n);
    }
    S.SeriesBounded(SeriesOf(problems), s, events, t);
  }
}
