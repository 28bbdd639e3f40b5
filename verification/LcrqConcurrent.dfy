/** The lock-free queue of linked rings as a transition system.

    Every shared access of the program (fetch-and-add, plain read, CAS, double-word CAS) is one step, taken by any
    thread at any time.  A state carries, beside the program's memory, the history that the statements speak about:
    which ticket stored which value, which ticket took which value, and which dequeuers left their cell without one.
 */
module LcrqConcurrent {
  import opened Wrappers

  type Value = nat

  /** A ring node: `None` is the all-ones empty marker; `idx` and `unsafe` are the low 63 bits and the top bit. */
  datatype Cell<+T> = Cell(val: Option<T>, idx: nat, unsafe: bool)

  /** The tail word: a counter and the closed bit. */
  datatype Tail = Tail(index: nat, closed: bool)

  datatype Ring = Ring(
    cells: seq<Cell<Value>>, head: nat, tail: Tail,
    // History.
    openTail: nat,             // the tail counter, frozen when the ring closes
    stored: map<nat, Value>,   // enqueue ticket -> value put in a cell
    taken: map<nat, Value>,    // dequeue ticket -> value returned
    left: set<nat>,            // dequeue tickets whose owner left the cell without a value
    writers: map<nat, nat>,    // enqueue ticket -> thread still trying to use it
    holders: map<nat, nat>)    // dequeue ticket -> thread still waiting at its cell

  /** Where a thread is: `Enq...` inside lcrq_enqueue, `Deq...` inside lcrq_dequeue. */
  datatype Local =
    | Idle
    | EnqNext(v: Value, ring: nat, tries: nat)
    | EnqFaa(v: Value, ring: nat, tries: nat)
    | EnqLink(v: Value, ring: nat, tries: nat)
    | EnqIdx(v: Value, ring: nat, tries: nat, t: nat)
    | EnqVal(v: Value, ring: nat, tries: nat, t: nat, idx: nat, unsafe: bool)
    | EnqHead(v: Value, ring: nat, tries: nat, t: nat, idx: nat, unsafe: bool)
    | EnqCas(v: Value, ring: nat, tries: nat, t: nat, idx: nat, unsafe: bool)
    | EnqFull(v: Value, ring: nat, tries: nat, t: nat)
    | EnqClose(v: Value, ring: nat, tries: nat, t: nat)
    | DeqQuick(reload: bool)
    | QuickTail(ring: nat, reload: bool)
    | QuickLoad(first: nat, tail: nat)
    | QuickHead(ring: nat, first: nat, tail: nat, reload: bool)
    | QuickLast(first: nat)
    | QuickNext(ring: nat, first: nat)
    | DeqHead
    | DeqFaa(ring: nat)
    | DeqIdx(ring: nat, h: nat, spins: nat, seen: Tail)
    | DeqVal(ring: nat, h: nat, spins: nat, seen: Tail, idx: nat, unsafe: bool)
    | DeqTail(ring: nat, h: nat, spins: nat, seen: Tail, idx: nat, unsafe: bool)
    | DeqTake(ring: nat, h: nat, spins: nat, seen: Tail, idx: nat, unsafe: bool, val: Value)
    | DeqMark(ring: nat, h: nat, spins: nat, seen: Tail, idx: nat, unsafe: bool, val: Value)
    | DeqSkip(ring: nat, h: nat, spins: nat, seen: Tail, idx: nat, unsafe: bool)
    | DeqShut(ring: nat, h: nat)
    | DeqCheck(ring: nat, h: nat)
    | FixTail(ring: nat, h: nat)
    | FixHead(ring: nat, h: nat, ft: Tail)
    | FixAgain(ring: nat, h: nat, ft: Tail, fh: nat)
    | FixCas(ring: nat, h: nat, ft: Tail, fh: nat)
    | DeqNext(ring: nat, h: nat)
    | DeqCheck2(ring: nat, h: nat)
    | DeqSwing(ring: nat, h: nat)

  /** One value moved by a completed operation, with the ring and the ticket it moved through. */
  datatype Event = Event(ring: nat, ticket: nat, value: Value)

  datatype State = State(
    rings: seq<Ring>,          // ring i's `next` is ring i + 1 once that exists
    qhead: nat,                // the queue's head pointer; its tail pointer never moves from ring 0
    threads: map<nat, Local>,
    puts: seq<Event>,
    gets: seq<Event>)

  /** What an idle thread calls next.  The quick test of a dequeue names the queue's head pointer three times; the
      pointer is not volatile, so `reload` is left open: it is loaded each time, or once. */
  datatype Input = CallEnqueue(v: Value) | CallDequeue(reload: bool)

  const TAIL_REFRESH: nat := 1024
  const SPIN_LIMIT: nat := 200000
  const CLOSE_TRIES: nat := 10

  function EmptyRing(size: nat): Ring {
    Ring(seq(size, (i: nat) => Cell(None, i, false)), 0, Tail(0, false), 0, map[], map[], {}, map[], map[])
  }

  /** The ring an enqueuer links behind a closed one, already holding its value under ticket 0. */
  function SoloRing(size: nat, v: Value): Ring
    requires size > 0
  {
    var r := EmptyRing(size);
    r.(cells := r.cells[0 := Cell(Some(v), 0, false)], tail := Tail(1, false), openTail := 1, stored := map[0 := v])
  }

  function Init(size: nat): State {
    State([EmptyRing(size)], 0, map[], [], [])
  }

  function LocalOf(s: State, tid: nat): Local {
    if tid in s.threads then s.threads[tid] else Idle
  }

  predicate WellFormed(s: State, size: nat) {
    && size > 0
    && s.qhead < |s.rings|
    && (forall i :: 0 <= i < |s.rings| ==> |s.rings[i].cells| == size)
    && (forall tid :: tid in s.threads ==> InRange(s.threads[tid], |s.rings|))
  }

  /** Places where a thread is at no ring. */
  predicate NoRing(l: Local) {
    l.Idle? || l.DeqHead? || l.DeqQuick? || l.QuickLoad? || l.QuickLast?
  }

  predicate InRange(l: Local, n: nat) {
    !NoRing(l) ==> l.ring < n
  }

  // ----- Effects on one ring -----

  /** The remainder of t by n, counted down a lap at a time. */
  function Lap(t: nat, n: nat): (j: nat)
    requires n > 0
    ensures j < n
  {
    if t < n then t else Lap(t - n, n)
  }

  function Slot(r: Ring, t: nat): (j: nat)
    requires |r.cells| > 0
    ensures j < |r.cells|
  {
    Lap(t, |r.cells|)
  }

  function CellAt(r: Ring, t: nat): Cell<Value>
    requires |r.cells| > 0
  {
    r.cells[Slot(r, t)]
  }

  function WithCell(r: Ring, t: nat, c: Cell<Value>): Ring
    requires |r.cells| > 0
  {
    r.(cells := r.cells[Slot(r, t) := c])
  }

  function Close(r: Ring): Ring {
    r.(tail := r.tail.(closed := true))
  }

  /** Fetch-and-add on the tail: a ticket only if the ring is still open. */
  function FaaTail(r: Ring, tid: nat): Ring {
    var moved := r.(tail := r.tail.(index := r.tail.index + 1));
    if r.tail.closed then moved
    else moved.(openTail := r.openTail + 1, writers := r.writers[r.tail.index := tid])
  }

  function FaaHead(r: Ring, tid: nat): Ring {
    r.(head := r.head + 1, holders := r.holders[r.head := tid])
  }

  function Abandon(r: Ring, t: nat): Ring {
    r.(writers := r.writers - {t})
  }

  function Store(r: Ring, t: nat, v: Value): Ring
    requires |r.cells| > 0
  {
    Abandon(WithCell(r, t, Cell(Some(v), t, false)), t).(stored := r.stored[t := v])
  }

  function Take(r: Ring, h: nat, unsafe: bool, v: Value): Ring
    requires |r.cells| > 0
  {
    WithCell(r, h, Cell(None, h + |r.cells|, unsafe)).(taken := r.taken[h := v], holders := r.holders - {h})
  }

  function Leave(r: Ring, h: nat): Ring {
    r.(left := r.left + {h}, holders := r.holders - {h})
  }

  function MarkUnsafe(r: Ring, h: nat, val: Value, idx: nat): Ring
    requires |r.cells| > 0
  {
    Leave(WithCell(r, h, Cell(Some(val), idx, true)), h)
  }

  function SkipEmpty(r: Ring, h: nat, unsafe: bool): Ring
    requires |r.cells| > 0
  {
    Leave(WithCell(r, h, Cell(None, h + |r.cells|, unsafe)), h)
  }

  function FixCasTail(r: Ring, fh: nat): Ring {
    r.(tail := Tail(fh, false), openTail := fh)
  }

  // ----- Steps -----

  /** What one access does: the thread's ring and place afterwards, and the operation it completes, if any. */
  datatype Move = Move(ring: Ring, local: Local, puts: seq<Event>, gets: seq<Event>)

  function Stay(r: Ring, l: Local): Move {
    Move(r, l, [], [])
  }

  predicate IsEnqueue(l: Local) {
    l.EnqNext? || l.EnqFaa? || l.EnqLink? || l.EnqIdx? || l.EnqVal? || l.EnqHead? || l.EnqCas? || l.EnqFull?
    || l.EnqClose?
  }

  /** Linking a ring and moving the queue's head reach beyond one ring; so do the places outside any ring. */
  predicate WithinRing(l: Local) {
    !NoRing(l) && !l.EnqLink? && !l.DeqSwing?
  }

  function EnqMove(l: Local, r: Ring, last: bool, tid: nat): Move
    requires IsEnqueue(l) && WithinRing(l) && |r.cells| > 0
  {
    match l {
      case EnqNext(v, i, tries) => Stay(r, if last then EnqFaa(v, i, tries) else EnqNext(v, i + 1, tries))
      case EnqFaa(v, i, tries) =>
        Stay(FaaTail(r, tid), if r.tail.closed then EnqLink(v, i, tries) else EnqIdx(v, i, tries, r.tail.index))
      case EnqIdx(v, i, tries, t) => Stay(r, EnqVal(v, i, tries, t, CellAt(r, t).idx, CellAt(r, t).unsafe))
      case EnqVal(v, i, tries, t, idx, unsafe) =>
        if CellAt(r, t).val.None? && idx <= t then
          Stay(r, if unsafe then EnqHead(v, i, tries, t, idx, unsafe) else EnqCas(v, i, tries, t, idx, unsafe))
        else Stay(Abandon(r, t), EnqFull(v, i, tries, t))
      case EnqHead(v, i, tries, t, idx, unsafe) =>
        if r.head < t then Stay(r, EnqCas(v, i, tries, t, idx, unsafe))
        else Stay(Abandon(r, t), EnqFull(v, i, tries, t))
      case EnqCas(v, i, tries, t, idx, unsafe) =>
        if CellAt(r, t) == Cell(None, idx, unsafe) then Move(Store(r, t, v), Idle, [Event(i, t, v)], [])
        else Stay(Abandon(r, t), EnqFull(v, i, tries, t))
      case EnqFull(v, i, tries, t) =>
        Stay(r, if t - r.head >= |r.cells| then EnqClose(v, i, tries + 1, t) else EnqNext(v, i, tries))
      case EnqClose(v, i, tries, t) =>
        if !r.tail.closed && (tries < CLOSE_TRIES ==> r.tail.index == t + 1) then Stay(Close(r), EnqLink(v, i, tries))
        else Stay(r, EnqNext(v, i, tries))
    }
  }

  /** After an empty cell was read: skip it, or spin until the enqueuer arrives. */
  function DecideEmpty(l: Local, seen: Tail): Local
    requires l.DeqVal? || l.DeqTail?
  {
    if l.unsafe || seen.index < l.h + 1 || l.spins > SPIN_LIMIT || seen.closed
    then DeqSkip(l.ring, l.h, l.spins, seen, l.idx, l.unsafe)
    else DeqIdx(l.ring, l.h, l.spins + 1, seen)
  }

  function DeqMove(l: Local, r: Ring, last: bool, tid: nat): Move
    requires !IsEnqueue(l) && WithinRing(l) && |r.cells| > 0
  {
    var i := l.ring;
    match l {
      case QuickTail(_, reload) =>
        Stay(r, if reload then QuickLoad(i, r.tail.index) else QuickHead(i, i, r.tail.index, false))
      case QuickHead(_, first, tail, reload) =>
        Stay(r, if tail >= r.head + 1 then DeqHead else if reload then QuickLast(first) else QuickNext(i, first))
      case QuickNext(_, _) => Stay(r, if last then Idle else DeqHead)
      case DeqFaa(_) => Stay(FaaHead(r, tid), DeqIdx(i, r.head, 0, Tail(0, false)))
      case DeqIdx(_, h, spins, seen) => Stay(r, DeqVal(i, h, spins, seen, CellAt(r, h).idx, CellAt(r, h).unsafe))
      case DeqVal(_, h, spins, seen, idx, unsafe) =>
        var val := CellAt(r, h).val;
        if idx > h then Stay(Leave(r, h), DeqCheck(i, h))
        else if val.Some? then
          Stay(r, if idx == h then DeqTake(i, h, spins, seen, idx, unsafe, val.value)
                  else DeqMark(i, h, spins, seen, idx, unsafe, val.value))
        else if spins % TAIL_REFRESH == 0 then Stay(r, DeqTail(i, h, spins, seen, idx, unsafe))
        else Stay(r, DecideEmpty(l, seen))
      case DeqTail(_, _, _, _, _, _) => Stay(r, DecideEmpty(l, r.tail))
      case DeqTake(_, h, spins, seen, idx, unsafe, val) =>
        if CellAt(r, h) == Cell(Some(val), idx, unsafe) then
          Move(Take(r, h, unsafe, val), Idle, [], [Event(i, h, val)])
        else Stay(r, DeqIdx(i, h, spins, seen))
      case DeqMark(_, h, spins, seen, idx, unsafe, val) =>
        if CellAt(r, h) == Cell(Some(val), idx, unsafe) then Stay(MarkUnsafe(r, h, val, idx), DeqCheck(i, h))
        else Stay(r, DeqIdx(i, h, spins, seen))
      case DeqSkip(_, h, spins, seen, idx, unsafe) =>
        if CellAt(r, h) == Cell(None, idx, unsafe) then
          // A closed tail word is larger than any ring size.
          Stay(SkipEmpty(r, h, unsafe),
               if !unsafe && spins > SPIN_LIMIT && (seen.closed || seen.index > |r.cells|)
               then DeqShut(i, h) else DeqCheck(i, h))
        else Stay(r, DeqIdx(i, h, spins, seen))
      case DeqShut(_, h) => Stay(Close(r), DeqCheck(i, h))
      case DeqCheck(_, h) => Stay(r, if r.tail.index <= h + 1 then FixTail(i, h) else DeqHead)
      case FixTail(_, h) => Stay(r, FixHead(i, h, r.tail))
      case FixHead(_, h, ft) => Stay(r, FixAgain(i, h, ft, r.head))
      case FixAgain(_, h, ft, fh) =>
        if r.tail != ft then Stay(r, FixTail(i, h))
        // A closed tail word is larger than any head.
        else if !ft.closed && fh > ft.index then Stay(r, FixCas(i, h, ft, fh))
        else Stay(r, DeqNext(i, h))
      case FixCas(_, h, ft, fh) =>
        if r.tail == ft then Stay(FixCasTail(r, fh), DeqNext(i, h)) else Stay(r, FixTail(i, h))
      case DeqNext(_, h) => Stay(r, if last then Idle else DeqCheck2(i, h))
      case DeqCheck2(_, h) => Stay(r, if r.tail.index <= h + 1 then DeqSwing(i, h) else DeqHead)
    }
  }

  function MoveOf(l: Local, r: Ring, last: bool, tid: nat): Move
    requires WithinRing(l) && |r.cells| > 0
  {
    if IsEnqueue(l) then EnqMove(l, r, last, tid) else DeqMove(l, r, last, tid)
  }

  function Goto(s: State, tid: nat, l: Local): State {
    s.(threads := s.threads[tid := l])
  }

  function Apply(s: State, tid: nat, i: nat, m: Move): State
    requires i < |s.rings|
  {
    s.(rings := s.rings[i := m.ring], threads := s.threads[tid := m.local],
       puts := s.puts + m.puts, gets := s.gets + m.gets)
  }

  /** One access by thread `tid`; an idle thread starts the operation that `input` names. */
  function Step(s: State, size: nat, tid: nat, input: Input): State
    requires WellFormed(s, size)
  {
    match LocalOf(s, tid) {
      case Idle =>
        (match input {
           case CallEnqueue(v) => Goto(s, tid, EnqNext(v, 0, 0))
           case CallDequeue(reload) => Goto(s, tid, DeqQuick(reload))
         })
      case DeqQuick(reload) => Goto(s, tid, QuickTail(s.qhead, reload))
      case QuickLoad(first, tail) => Goto(s, tid, QuickHead(s.qhead, first, tail, true))
      case QuickLast(first) => Goto(s, tid, QuickNext(s.qhead, first))
      case EnqLink(v, i, tries) =>
        if i + 1 == |s.rings| then
          s.(rings := s.rings + [SoloRing(size, v)], threads := s.threads[tid := Idle],
             puts := s.puts + [Event(i + 1, 0, v)])
        else Goto(s, tid, EnqNext(v, i, tries))
      case DeqHead => Goto(s, tid, DeqFaa(s.qhead))
      case DeqSwing(i, _) => Goto(s, tid, DeqHead).(qhead := if s.qhead == i then i + 1 else s.qhead)
      case l => Apply(s, tid, l.ring, MoveOf(l, s.rings[l.ring], l.ring + 1 == |s.rings|, tid))
    }
  }

  // ----- Invariant of one ring -----

  ghost predicate Gone(r: Ring, h: nat) {
    h in r.taken || h in r.left
  }

  /** An occupied cell holds an untaken stored value, and every untaken stored value sits in its cell. */
  ghost predicate CellsHoldStored(r: Ring)
    requires |r.cells| > 0
  {
    && (forall j :: 0 <= j < |r.cells| && r.cells[j].val.Some? ==>
          var t := r.cells[j].idx;
          Slot(r, t) == j && t in r.stored && r.stored[t] == r.cells[j].val.value && t !in r.taken)
    && (forall t :: t in r.stored && t !in r.taken ==>
          CellAt(r, t).val == Some(r.stored[t]) && CellAt(r, t).idx == t)
  }

  /** A dequeuer that has gone blocks its enqueuer: the cell has moved past the ticket or is unsafe. */
  ghost predicate GoneBlocks(r: Ring)
    requires |r.cells| > 0
  {
    forall h :: Gone(r, h) ==> CellAt(r, h).idx > h || CellAt(r, h).unsafe
  }

  ghost predicate TicketsAccounted(r: Ring) {
    && r.openTail <= r.tail.index
    && (!r.tail.closed ==> r.openTail == r.tail.index)
    && (forall t :: t in r.stored ==> t < r.openTail && t !in r.left)
    && (forall t :: t in r.writers ==> t < r.openTail && t !in r.stored)
    && (forall h: nat :: Gone(r, h) || h in r.holders <==> h < r.head)
    && (forall h :: h in r.taken ==> h in r.stored && r.taken[h] == r.stored[h])
    && (forall h :: !(h in r.left && h in r.taken))
    && (forall h :: !(Gone(r, h) && h in r.holders))
  }

  ghost predicate RingInv(r: Ring) {
    |r.cells| > 0 && CellsHoldStored(r) && GoneBlocks(r) && TicketsAccounted(r)
  }

  // ----- Invariant of one thread -----

  /** Strictly increases whenever a cell changes: a cell never returns to an earlier content. */
  function Rank(c: Cell<Value>): nat {
    4 * c.idx + (if c.val.None? then 0 else if c.unsafe then 2 else 1)
  }

  ghost predicate HasRead(r: Ring, t: nat, idx: nat)
    requires |r.cells| > 0
  {
    Rank(CellAt(r, t)) >= 4 * idx
  }

  /** If the cell is still as read, no dequeuer that would miss ticket t has gone. */
  ghost predicate MayStore(r: Ring, t: nat, idx: nat, unsafe: bool)
    requires |r.cells| > 0
  {
    CellAt(r, t) == Cell(None, idx, unsafe) ==>
      forall h: nat :: Gone(r, h) && Slot(r, h) == Slot(r, t) ==> h < t
  }

  ghost predicate Sealed(r: Ring) {
    r.tail.closed && r.openTail <= r.head
  }

  ghost predicate Writes(r: Ring, t: nat, tid: nat) {
    t in r.writers && r.writers[t] == tid
  }

  ghost predicate Holds(r: Ring, h: nat, tid: nat) {
    h in r.holders && r.holders[h] == tid
  }

  ghost predicate LocalInv(tid: nat, l: Local, r: Ring, last: bool)
    requires |r.cells| > 0
  {
    match l {
      case Idle | EnqNext(_, _, _) | EnqFaa(_, _, _) | DeqHead | DeqFaa(_) | EnqFull(_, _, _, _) => true
      case DeqQuick(_) | QuickTail(_, _) | QuickLoad(_, _) | QuickHead(_, _, _, _) | QuickLast(_) | QuickNext(_, _) => true
      case EnqClose(_, _, _, _) => true
      case EnqLink(_, _, _) => r.tail.closed
      case EnqIdx(_, _, _, t) => Writes(r, t, tid)
      case EnqVal(_, _, _, t, idx, _) => Writes(r, t, tid) && HasRead(r, t, idx)
      case EnqHead(_, _, _, t, idx, unsafe) => Writes(r, t, tid) && HasRead(r, t, idx) && idx <= t && unsafe
      case EnqCas(_, _, _, t, idx, unsafe) =>
        Writes(r, t, tid) && HasRead(r, t, idx) && idx <= t && MayStore(r, t, idx, unsafe)
      case DeqIdx(_, h, _, _) => Holds(r, h, tid)
      case DeqVal(_, h, _, _, idx, _) => Holds(r, h, tid) && HasRead(r, h, idx)
      case DeqTail(_, h, _, _, idx, _) => Holds(r, h, tid) && idx <= h
      case DeqTake(_, h, _, _, idx, _, _) => Holds(r, h, tid) && idx == h
      case DeqMark(_, h, _, _, idx, _, _) => Holds(r, h, tid) && idx < h
      case DeqSkip(_, h, _, _, idx, _) => Holds(r, h, tid) && idx <= h
      case DeqShut(_, h) => h < r.head
      case DeqCheck(_, h) => h < r.head
      case FixTail(_, h) => h < r.head
      case FixHead(_, h, _) => h < r.head
      case FixAgain(_, h, _, fh) => h < r.head
      case FixCas(_, h, ft, fh) => h < r.head && !ft.closed && fh > ft.index
      case DeqNext(_, h) => h < r.head
      case DeqCheck2(_, h) => h < r.head && !last
      case DeqSwing(_, h) => !last && Sealed(r)
    }
  }

  /** Does the thread, by its program counter, stand at a cell with a dequeue ticket? */
  predicate Waiting(l: Local) {
    l.DeqIdx? || l.DeqVal? || l.DeqTail? || l.DeqTake? || l.DeqMark? || l.DeqSkip?
  }

  // ----- Invariant of the whole queue -----

  ghost predicate RingsInv(rings: seq<Ring>, size: nat) {
    && size > 0
    && (forall i :: 0 <= i < |rings| ==> |rings[i].cells| == size && RingInv(rings[i]))
  }

  /** Only the last ring may be open, and the rings behind the head are sealed. */
  ghost predicate ChainInv(rings: seq<Ring>, qhead: nat) {
    && qhead < |rings|
    && (forall i :: 0 <= i < |rings| - 1 ==> rings[i].tail.closed)
    && (forall i :: 0 <= i < qhead ==> Sealed(rings[i]))
  }

  ghost predicate ThreadOk(tid: nat, l: Local, rings: seq<Ring>) {
    InRange(l, |rings|) &&
    (!NoRing(l) ==>
       |rings[l.ring].cells| > 0 && LocalInv(tid, l, rings[l.ring], l.ring + 1 == |rings|))
  }

  ghost predicate ThreadsOk(threads: map<nat, Local>, rings: seq<Ring>) {
    forall tid :: tid in threads ==> ThreadOk(tid, threads[tid], rings)
  }

  /** Every ticket recorded as held is held by a thread standing at that cell. */
  ghost predicate OwnersWait(threads: map<nat, Local>, rings: seq<Ring>) {
    forall i, h :: 0 <= i < |rings| && h in rings[i].holders ==> StandsAt(threads, rings[i].holders[h], i, h)
  }

  predicate StandsAt(threads: map<nat, Local>, tid: nat, i: nat, h: nat) {
    tid in threads && Waiting(threads[tid]) && threads[tid].ring == i && threads[tid].h == h
  }

  /** The history lists exactly the values moved, each once. */
  ghost predicate Logs(rings: seq<Ring>, puts: seq<Event>, gets: seq<Event>) {
    && (forall k :: 0 <= k < |puts| ==> WasStored(rings, puts[k]))
    && (forall k :: 0 <= k < |gets| ==> WasTaken(rings, gets[k]))
    && (forall i, t :: 0 <= i < |rings| && t in rings[i].stored ==> Event(i, t, rings[i].stored[t]) in puts)
    && (forall i, t :: 0 <= i < |rings| && t in rings[i].taken ==> Event(i, t, rings[i].taken[t]) in gets)
    && NoDuplicates(puts)
    && NoDuplicates(gets)
  }

  ghost predicate WasStored(rings: seq<Ring>, e: Event) {
    e.ring < |rings| && e.ticket in rings[e.ring].stored && rings[e.ring].stored[e.ticket] == e.value
  }

  ghost predicate WasTaken(rings: seq<Ring>, e: Event) {
    e.ring < |rings| && e.ticket in rings[e.ring].taken && rings[e.ring].taken[e.ticket] == e.value
  }

  ghost predicate NoDuplicates(log: seq<Event>) {
    forall a, b :: 0 <= a < b < |log| ==> log[a] != log[b]
  }

  ghost predicate Inv(s: State, size: nat) {
    && RingsInv(s.rings, size)
    && ChainInv(s.rings, s.qhead)
    && ThreadsOk(s.threads, s.rings)
    && OwnersWait(s.threads, s.rings)
    && Logs(s.rings, s.puts, s.gets)
  }

  // ----- How a ring may change -----

  /** Everything the other threads rely on. */
  ghost predicate Evolves(r: Ring, r': Ring, tid: nat) {
    && |r.cells| == |r'.cells| > 0
    && (forall j :: 0 <= j < |r.cells| ==> r'.cells[j] == r.cells[j] || Rank(r'.cells[j]) > Rank(r.cells[j]))
    && (forall h :: Gone(r', h) && !Gone(r, h) ==> CellAt(r', h).idx > h || CellAt(r', h).val.Some?)
    && r.head <= r'.head
    && (r.tail.closed ==> r'.tail.closed && r'.openTail == r.openTail)
    && (forall t, u :: u != tid ==> (Writes(r, t, u) <==> Writes(r', t, u)))
    && (forall h, u :: u != tid ==> (Holds(r, h, u) <==> Holds(r', h, u)))
    && (forall t :: t in r.stored ==> t in r'.stored && r'.stored[t] == r.stored[t])
    && (forall t :: t in r.taken ==> t in r'.taken && r'.taken[t] == r.taken[t])
  }

  lemma EvolvedCell(r: Ring, r': Ring, tid: nat, t: nat, idx: nat)
    requires Evolves(r, r', tid) && HasRead(r, t, idx)
    ensures HasRead(r', t, idx)
    ensures CellAt(r', t).val.None? && CellAt(r', t).idx == idx ==> CellAt(r', t) == CellAt(r, t)
  {
    var j := Slot(r, t);
    assert r'.cells[j] == r.cells[j] || Rank(r'.cells[j]) > Rank(r.cells[j]);
  }

  lemma MayStoreKept(r: Ring, r': Ring, tid: nat, t: nat, idx: nat, unsafe: bool)
    requires Evolves(r, r', tid) && HasRead(r, t, idx) && idx <= t && MayStore(r, t, idx, unsafe)
    ensures MayStore(r', t, idx, unsafe)
  {
    if CellAt(r', t) == Cell(None, idx, unsafe) {
      EvolvedCell(r, r', tid, t, idx);
      forall h: nat | Gone(r', h) && Slot(r', h) == Slot(r', t) ensures h < t {
        if Gone(r, h) {
          assert Slot(r, h) == Slot(r, t);
        } else {
          assert CellAt(r', h) == CellAt(r', t);
        }
      }
    }
  }

  lemma LocalKept(u: nat, l: Local, r: Ring, r': Ring, tid: nat, last: bool)
    requires Evolves(r, r', tid) && u != tid && LocalInv(u, l, r, last)
    ensures LocalInv(u, l, r', last)
  {
    match l {
      case EnqVal(_, _, _, t, idx, _) => EvolvedCell(r, r', tid, t, idx);
      case EnqHead(_, _, _, t, idx, _) => EvolvedCell(r, r', tid, t, idx);
      case EnqCas(_, _, _, t, idx, unsafe) =>
        EvolvedCell(r, r', tid, t, idx);
        MayStoreKept(r, r', tid, t, idx, unsafe);
      case DeqVal(_, h, _, _, idx, _) => EvolvedCell(r, r', tid, h, idx);
      case _ =>
    }
  }

  // ----- Each effect keeps the ring invariant and lets the other threads stand -----

  /** An effect that moves no value and no dequeuer: a tail word or an enqueue ticket changes. */
  ghost predicate OnlyTickets(r: Ring, r': Ring) {
    r'.cells == r.cells && r'.stored == r.stored && r'.taken == r.taken && r'.left == r.left
  }

  lemma OnlyTicketsKeeps(r: Ring, r': Ring, tid: nat)
    requires RingInv(r) && OnlyTickets(r, r') && TicketsAccounted(r')
    ensures RingInv(r')
  {
    SameCells(r, r');
  }

  lemma SameCells(r: Ring, r': Ring)
    requires |r.cells| > 0 && CellsHoldStored(r) && GoneBlocks(r) && OnlyTickets(r, r')
    ensures CellsHoldStored(r') && GoneBlocks(r')
  {
    forall h: nat | Gone(r', h) ensures CellAt(r', h).idx > h || CellAt(r', h).unsafe {
      assert Gone(r, h);
    }
    forall t: nat | t in r'.stored && t !in r'.taken
      ensures CellAt(r', t).val == Some(r'.stored[t]) && CellAt(r', t).idx == t
    {
      assert CellAt(r, t).idx == t;
    }
  }

  lemma FaaTailKeeps(r: Ring, tid: nat)
    requires |r.cells| > 0 && TicketsAccounted(r)
    ensures TicketsAccounted(FaaTail(r, tid)) && Evolves(r, FaaTail(r, tid), tid)
    ensures !r.tail.closed ==> Writes(FaaTail(r, tid), r.tail.index, tid)
  {
    forall h: nat ensures Gone(FaaTail(r, tid), h) == Gone(r, h) {}
  }

  lemma FaaHeadKeeps(r: Ring, tid: nat)
    requires |r.cells| > 0 && TicketsAccounted(r)
    ensures TicketsAccounted(FaaHead(r, tid)) && Evolves(r, FaaHead(r, tid), tid)
    ensures Holds(FaaHead(r, tid), r.head, tid)
  {
    assert !Gone(r, r.head) && r.head !in r.holders;
    forall h: nat ensures Gone(FaaHead(r, tid), h) == Gone(r, h) {}
  }

  lemma AbandonKeeps(r: Ring, tid: nat, t: nat)
    requires |r.cells| > 0 && TicketsAccounted(r) && Writes(r, t, tid)
    ensures TicketsAccounted(Abandon(r, t)) && Evolves(r, Abandon(r, t), tid)
  {
    forall h: nat ensures Gone(Abandon(r, t), h) == Gone(r, h) {}
  }

  lemma CloseKeeps(r: Ring, tid: nat)
    requires |r.cells| > 0 && TicketsAccounted(r)
    ensures TicketsAccounted(Close(r)) && Evolves(r, Close(r), tid)
  {
    forall h: nat ensures Gone(Close(r), h) == Gone(r, h) {}
  }

  lemma FixCasTailKeeps(r: Ring, tid: nat, ft: Tail, fh: nat)
    requires |r.cells| > 0 && TicketsAccounted(r) && r.tail == ft && !ft.closed && fh > ft.index
    ensures TicketsAccounted(FixCasTail(r, fh)) && Evolves(r, FixCasTail(r, fh), tid)
  {
    forall h: nat ensures Gone(FixCasTail(r, fh), h) == Gone(r, h) {}
  }

  /** The heart of "no loss": a double-word CAS that succeeds finds its dequeuer not yet gone. */
  lemma StorerNotMissed(r: Ring, t: nat, idx: nat, unsafe: bool)
    requires RingInv(r) && idx <= t && MayStore(r, t, idx, unsafe)
    requires CellAt(r, t) == Cell(None, idx, unsafe)
    ensures !Gone(r, t)
  {
  }

  lemma StoreCells(r: Ring, t: nat, v: Value, idx: nat, unsafe: bool)
    requires |r.cells| > 0 && CellsHoldStored(r) && CellAt(r, t) == Cell(None, idx, unsafe) && t !in r.taken
    ensures CellsHoldStored(Store(r, t, v))
  {
    var r' := Store(r, t, v);
    forall u: nat | u in r'.stored && u !in r'.taken
      ensures CellAt(r', u).val == Some(r'.stored[u]) && CellAt(r', u).idx == u
    {
      assert u != t ==> CellAt(r, u) != Cell(None, idx, unsafe);
    }
  }

  lemma StoreGone(r: Ring, t: nat, v: Value, idx: nat, unsafe: bool)
    requires |r.cells| > 0 && GoneBlocks(r) && CellAt(r, t) == Cell(None, idx, unsafe) && MayStore(r, t, idx, unsafe)
    ensures GoneBlocks(Store(r, t, v))
  {
    var r' := Store(r, t, v);
    forall h: nat | Gone(r', h) ensures CellAt(r', h).idx > h || CellAt(r', h).unsafe {
      assert Gone(r, h);
    }
  }

  lemma StoreKeeps(r: Ring, tid: nat, t: nat, v: Value, idx: nat, unsafe: bool)
    requires |r.cells| > 0 && TicketsAccounted(r) && Writes(r, t, tid) && !Gone(r, t)
    requires CellAt(r, t) == Cell(None, idx, unsafe) && idx <= t
    ensures TicketsAccounted(Store(r, t, v)) && Evolves(r, Store(r, t, v), tid)
  {
    forall h: nat ensures Gone(Store(r, t, v), h) == Gone(r, h) {}
  }

  /** `Slot` is the remainder that the program computes with a mask. */
  lemma {:induction false} LapIsRemainder(t: nat, n: nat)
    requires n > 0
    ensures Lap(t, n) == t % n
  {
    if t >= n {
      LapIsRemainder(t - n, n);
      ModLap(t - n, n);
    }
  }

  lemma ModLap(a: nat, n: nat)
    requires n > 0
    ensures (a + n) % n == a % n
  {
    var q, m, q', m' := a / n, a % n, (a + n) / n, (a + n) % n;
    assert a == n * q + m && a + n == n * q' + m';
    var d := q' - q - 1;
    assert n * d == m - m' by { assert n * d == n * q' - n * q - n; }
    NoSmallMultiple(n, d);
  }

  lemma NoSmallMultiple(n: int, d: int)
    requires n > 0
    ensures d >= 1 ==> n * d >= n
    ensures d <= -1 ==> n * d <= -n
  {
    if d <= -1 { assert n * (-d) >= n; }
  }

  /** Ticket h leaves, whether with its value or without. */
  ghost predicate Departs(r: Ring, r': Ring, h: nat) {
    && forall g: nat :: Gone(r', g) <==> Gone(r, g) || g == h
  }

  lemma TakeCells(r: Ring, h: nat, unsafe: bool, v: Value)
    requires |r.cells| > 0 && CellsHoldStored(r) && CellAt(r, h) == Cell(Some(v), h, unsafe)
    ensures h in r.stored && r.stored[h] == v && h !in r.taken
    ensures CellsHoldStored(Take(r, h, unsafe, v))
  {
    var r' := Take(r, h, unsafe, v);
    var j := Slot(r, h);
    assert r.cells[j].val.Some?;
    forall u: nat | u in r'.stored && u !in r'.taken
      ensures CellAt(r', u).val == Some(r'.stored[u]) && CellAt(r', u).idx == u
    {
      assert u != h && CellAt(r, u).idx == u;
      assert Slot(r, u) != j;
    }
  }

  lemma MarkCells(r: Ring, h: nat, val: Value, idx: nat, unsafe: bool)
    requires |r.cells| > 0 && CellsHoldStored(r) && CellAt(r, h) == Cell(Some(val), idx, unsafe) && idx < h
    ensures h in r.stored ==> h in r.taken
    ensures CellsHoldStored(MarkUnsafe(r, h, val, idx))
  {
    var r' := MarkUnsafe(r, h, val, idx);
    assert r.cells[Slot(r, h)].val.Some?;
    assert forall k :: 0 <= k < |r.cells| ==> r'.cells[k].val == r.cells[k].val && r'.cells[k].idx == r.cells[k].idx;
    forall u: nat | u in r'.stored && u !in r'.taken
      ensures CellAt(r', u).val == Some(r'.stored[u]) && CellAt(r', u).idx == u
    {
      assert CellAt(r', u).val == CellAt(r, u).val;
    }
  }

  lemma SkipCells(r: Ring, h: nat, idx: nat, unsafe: bool)
    requires |r.cells| > 0 && CellsHoldStored(r) && CellAt(r, h) == Cell(None, idx, unsafe)
    ensures h in r.stored ==> h in r.taken
    ensures CellsHoldStored(SkipEmpty(r, h, unsafe))
  {
    var r' := SkipEmpty(r, h, unsafe);
    forall u: nat | u in r'.stored && u !in r'.taken
      ensures CellAt(r', u).val == Some(r'.stored[u]) && CellAt(r', u).idx == u
    {
      assert CellAt(r, u).val.Some?;
      assert Slot(r, u) != Slot(r, h);
    }
  }

  /** A departure that leaves the cell past the ticket, or unsafe, keeps the block on the matching enqueuer. */
  lemma DepartGone(r: Ring, r': Ring, h: nat)
    requires |r.cells| == |r'.cells| > 0 && GoneBlocks(r) && Departs(r, r', h)
    requires r'.cells == r.cells[Slot(r, h) := CellAt(r', h)]
    requires CellAt(r', h).idx >= CellAt(r, h).idx && (CellAt(r, h).unsafe ==> CellAt(r', h).unsafe)
    requires CellAt(r', h).idx > h || CellAt(r', h).unsafe
    ensures GoneBlocks(r')
  {
    forall g: nat | Gone(r', g) ensures CellAt(r', g).idx > g || CellAt(r', g).unsafe {
      if Gone(r, g) { assert CellAt(r, g).idx > g || CellAt(r, g).unsafe; }
    }
  }

  lemma TakeTickets(r: Ring, tid: nat, h: nat, unsafe: bool, v: Value)
    requires |r.cells| > 0 && TicketsAccounted(r) && Holds(r, h, tid) && h in r.stored && r.stored[h] == v
    requires CellAt(r, h) == Cell(Some(v), h, unsafe)
    ensures TicketsAccounted(Take(r, h, unsafe, v)) && Evolves(r, Take(r, h, unsafe, v), tid)
    ensures Departs(r, Take(r, h, unsafe, v), h)
  {
    var r' := Take(r, h, unsafe, v);
    forall g: nat ensures Gone(r', g) == (Gone(r, g) || g == h) {}
  }

  lemma LeaveTickets(r: Ring, h: nat)
    requires TicketsAccounted(r) && h in r.holders && (h in r.stored ==> h in r.taken)
    ensures TicketsAccounted(Leave(r, h)) && Departs(r, Leave(r, h), h)
  {
    assert !Gone(r, h);
    forall g: nat ensures Gone(Leave(r, h), g) == (Gone(r, g) || g == h) {}
  }

  /** Leaving a cell, whatever is written to it on the way out. */
  lemma LeaveKeeps(r: Ring, tid: nat, h: nat, c: Cell<Value>)
    requires RingInv(r) && Holds(r, h, tid) && (h in r.stored ==> h in r.taken)
    requires c == CellAt(r, h) || Rank(c) > Rank(CellAt(r, h))
    requires c.idx >= CellAt(r, h).idx && (CellAt(r, h).unsafe ==> c.unsafe)
    requires c.idx > h || (c.unsafe && c.val.Some?)
    requires CellsHoldStored(WithCell(r, h, c))
    ensures RingInv(Leave(WithCell(r, h, c), h)) && Evolves(r, Leave(WithCell(r, h, c), h), tid)
  {
    var r' := Leave(WithCell(r, h, c), h);
    LeaveTickets(r, h);
    LeaveAccounts(r, r', h);
    LeaveCells(WithCell(r, h, c), r');
    assert Departs(r, r', h) by { forall g: nat ensures Gone(r', g) == Gone(Leave(r, h), g) {} }
    DepartGone(r, r', h);
  }

  lemma LeaveAccounts(r: Ring, r': Ring, h: nat)
    requires TicketsAccounted(Leave(r, h)) && r' == Leave(r, h).(cells := r'.cells)
    ensures TicketsAccounted(r')
  {
    forall g: nat ensures Gone(r', g) == Gone(Leave(r, h), g) {}
  }

  lemma LeaveCells(r: Ring, r': Ring)
    requires |r.cells| > 0 && CellsHoldStored(r)
    requires r'.cells == r.cells && r'.stored == r.stored && r'.taken == r.taken
    ensures CellsHoldStored(r')
  {
    forall t: nat | t in r'.stored && t !in r'.taken
      ensures CellAt(r', t).val == Some(r'.stored[t]) && CellAt(r', t).idx == t
    {
      assert CellAt(r, t).idx == t;
    }
  }

  lemma SoloKeeps(size: nat, v: Value)
    requires size > 0
    ensures RingInv(SoloRing(size, v)) && |SoloRing(size, v).cells| == size
  {
    var r := SoloRing(size, v);
    assert Slot(r, 0) == 0;
    assert forall h: nat :: !Gone(r, h);
  }

  // ----- Each step keeps the queue invariant -----

  lemma GotoKeeps(s: State, size: nat, tid: nat, l: Local)
    requires Inv(s, size) && ThreadOk(tid, l, s.rings)
    requires forall i, h :: StandsAt(s.threads, tid, i, h) ==> Waiting(l) && l.ring == i && l.h == h
    ensures Inv(Goto(s, tid, l), size)
  {
    GotoThreads(s.threads, s.rings, tid, l);
  }

  lemma GotoThreads(threads: map<nat, Local>, rings: seq<Ring>, tid: nat, l: Local)
    requires ThreadsOk(threads, rings) && OwnersWait(threads, rings) && ThreadOk(tid, l, rings)
    requires forall i, h :: StandsAt(threads, tid, i, h) ==> Waiting(l) && l.ring == i && l.h == h
    ensures ThreadsOk(threads[tid := l], rings) && OwnersWait(threads[tid := l], rings)
  {
    var threads' := threads[tid := l];
    forall i, h | 0 <= i < |rings| && h in rings[i].holders
      ensures StandsAt(threads', rings[i].holders[h], i, h)
    {
      assert StandsAt(threads, rings[i].holders[h], i, h);
    }
  }

  lemma LogsKept(rings: seq<Ring>, i: nat, r': Ring, puts: seq<Event>, gets: seq<Event>,
                 put: seq<Event>, got: seq<Event>)
    requires Logs(rings, puts, gets) && i < |rings|
    requires Logged(rings[i].stored, r'.stored, put, i)
    requires Logged(rings[i].taken, r'.taken, got, i)
    ensures Logs(rings[i := r'], puts + put, gets + got)
  {
    var rings', puts', gets' := rings[i := r'], puts + put, gets + got;
    forall k | 0 <= k < |puts'| ensures WasStored(rings', puts'[k]) {
      if k < |puts| { assert WasStored(rings, puts[k]); }
    }
    forall k | 0 <= k < |gets'| ensures WasTaken(rings', gets'[k]) {
      if k < |gets| { assert WasTaken(rings, gets[k]); }
    }
    forall j, t | 0 <= j < |rings'| && t in rings'[j].stored ensures Event(j, t, rings'[j].stored[t]) in puts' {
      if j != i || t in rings[i].stored { assert Event(j, t, rings[j].stored[t]) in puts; }
    }
    forall j, t | 0 <= j < |rings'| && t in rings'[j].taken ensures Event(j, t, rings'[j].taken[t]) in gets' {
      if j != i || t in rings[i].taken { assert Event(j, t, rings[j].taken[t]) in gets; }
    }
  }

  lemma ThreadsKept(threads: map<nat, Local>, rings: seq<Ring>, tid: nat, l: Local, i: nat, r': Ring)
    requires i < |rings| && Evolves(rings[i], r', tid)
    requires ThreadsOk(threads, rings) && ThreadOk(tid, l, rings[i := r'])
    ensures ThreadsOk(threads[tid := l], rings[i := r'])
  {
    var rings' := rings[i := r'];
    forall u | u in threads && u != tid ensures ThreadOk(u, threads[u], rings') {
      var k := threads[u];
      assert ThreadOk(u, k, rings);
      if !NoRing(k) && k.ring == i {
        LocalKept(u, k, rings[i], r', tid, i + 1 == |rings|);
      }
    }
  }

  lemma OwnersKept(threads: map<nat, Local>, rings: seq<Ring>, tid: nat, l: Local, i: nat, r': Ring)
    requires i < |rings| && Evolves(rings[i], r', tid)
    requires OwnersWait(threads, rings)
    requires forall k, h :: StandsAt(threads, tid, k, h) ==> k == i
    requires forall h :: Holds(r', h, tid) ==> Waiting(l) && l.ring == i && l.h == h
    ensures OwnersWait(threads[tid := l], rings[i := r'])
  {
    var threads', rings' := threads[tid := l], rings[i := r'];
    forall k, h | 0 <= k < |rings'| && h in rings'[k].holders
      ensures StandsAt(threads', rings'[k].holders[h], k, h)
    {
      var u := rings'[k].holders[h];
      if k == i {
        assert Holds(r', h, u);
        if u != tid { assert Holds(rings[i], h, u); assert StandsAt(threads, u, k, h); }
      } else {
        assert StandsAt(threads, u, k, h);
      }
    }
  }

  lemma ChainKept(rings: seq<Ring>, qhead: nat, tid: nat, i: nat, r': Ring)
    requires ChainInv(rings, qhead) && i < |rings| && Evolves(rings[i], r', tid)
    ensures ChainInv(rings[i := r'], qhead)
  {
  }

  // ----- Each move keeps its ring, its thread and everyone else -----

  ghost predicate MoveOk(l: Local, r: Ring, last: bool, tid: nat, m: Move)
    requires WithinRing(l)
  {
    RingInv(m.ring) && Evolves(r, m.ring, tid) && ArrivesOk(l, r, last, tid, m)
  }

  ghost predicate ArrivesOk(l: Local, r: Ring, last: bool, tid: nat, m: Move)
    requires WithinRing(l)
  {
    && (!NoRing(m.local) ==>
          if m.local.ring == l.ring then |m.ring.cells| > 0 && LocalInv(tid, m.local, m.ring, last)
          else m.local.EnqNext? && !last && m.local.ring == l.ring + 1)
    && (forall h :: Holds(m.ring, h, tid) ==> Waiting(m.local) && m.local.ring == l.ring && m.local.h == h)
    && Logged(r.stored, m.ring.stored, m.puts, l.ring)
    && Logged(r.taken, m.ring.taken, m.gets, l.ring)
  }

  ghost predicate Logged(before: map<nat, Value>, after: map<nat, Value>, log: seq<Event>, i: nat) {
    || (after == before && log == [])
    || (exists t, v :: t !in before && after == before[t := v] && log == [Event(i, t, v)])
  }

  /** What the queue invariant grants a thread about to move within its ring. */
  ghost predicate Ready(l: Local, r: Ring, last: bool, tid: nat) {
    && WithinRing(l)
    && RingInv(r)
    && LocalReady(l, r, last, tid)
  }

  ghost predicate LocalReady(l: Local, r: Ring, last: bool, tid: nat)
    requires |r.cells| > 0
  {
    && LocalInv(tid, l, r, last)
    && (forall h :: Holds(r, h, tid) ==> Waiting(l) && l.h == h)
    && (!last ==> r.tail.closed)
  }

  lemma EvolvesSame(r: Ring, tid: nat)
    requires RingInv(r)
    ensures Evolves(r, r, tid)
  {
  }

  /** A safe cell that is still empty at the index read has let no dequeuer past. */
  lemma SafeMayStore(r: Ring, t: nat, idx: nat)
    requires |r.cells| > 0 && GoneBlocks(r) && idx <= t
    ensures MayStore(r, t, idx, false)
  {
    if CellAt(r, t) == Cell(None, idx, false) {
      forall h: nat | Gone(r, h) && Slot(r, h) == Slot(r, t) ensures h < t {
        assert CellAt(r, h) == CellAt(r, t);
      }
    }
  }

  /** Behind the ring's head no dequeuer has started, so an unsafe cell may be used. */
  lemma LateMayStore(r: Ring, t: nat, idx: nat)
    requires |r.cells| > 0 && TicketsAccounted(r) && r.head < t
    ensures MayStore(r, t, idx, true)
  {
  }

  lemma EnqueueArrives(l: Local, r: Ring, last: bool, tid: nat)
    requires WithinRing(l) && |r.cells| > 0 && IsEnqueue(l) && !l.EnqCas?
    requires LocalReady(l, r, last, tid)
    requires l.EnqVal? && l.idx <= l.t ==> MayStore(r, l.t, l.idx, false)
    requires l.EnqHead? && r.head < l.t ==> MayStore(r, l.t, l.idx, true)
    requires l.EnqHead? ==> l.unsafe
    ensures ArrivesOk(l, r, last, tid, EnqMove(l, r, last, tid))
  {
    var m := EnqMove(l, r, last, tid);
    assert forall h :: Holds(m.ring, h, tid) ==> Holds(r, h, tid);
    assert m.ring.stored == r.stored && m.ring.taken == r.taken;
  }

  lemma CasArrives(l: Local, r: Ring, last: bool, tid: nat)
    requires l.EnqCas? && |r.cells| > 0
    requires LocalReady(l, r, last, tid) && TicketsAccounted(r)
    ensures ArrivesOk(l, r, last, tid, EnqMove(l, r, last, tid))
  {
    var m := EnqMove(l, r, last, tid);
    assert forall h :: Holds(m.ring, h, tid) ==> Holds(r, h, tid);
    assert l.t !in r.stored;
  }

  lemma TakeArrives(l: Local, r: Ring, last: bool, tid: nat)
    requires l.DeqTake? && |r.cells| > 0
    requires LocalReady(l, r, last, tid) && TicketsAccounted(r)
    ensures ArrivesOk(l, r, last, tid, DeqMove(l, r, last, tid))
  {
    var m := DeqMove(l, r, last, tid);
    assert forall h :: Holds(m.ring, h, tid) ==> Holds(r, h, tid);
    assert !Gone(r, l.h);
  }

  lemma LookingArrives(l: Local, r: Ring, last: bool, tid: nat)
    requires |r.cells| > 0 && (l.DeqIdx? || l.DeqTail?)
    requires LocalReady(l, r, last, tid) && l.h < r.head
    ensures ArrivesOk(l, r, last, tid, DeqMove(l, r, last, tid))
  {
    var m := DeqMove(l, r, last, tid);
    assert forall h :: Holds(m.ring, h, tid) ==> Holds(r, h, tid);
    assert m.ring.stored == r.stored && m.ring.taken == r.taken && m.ring.head == r.head;
  }

  lemma PassedArrives(l: Local, r: Ring, last: bool, tid: nat)
    requires |r.cells| > 0 && l.DeqVal? && l.idx > l.h
    requires LocalReady(l, r, last, tid) && l.h < r.head
    ensures ArrivesOk(l, r, last, tid, DeqMove(l, r, last, tid))
  {
    var m := DeqMove(l, r, last, tid);
    assert forall h :: Holds(m.ring, h, tid) ==> Holds(r, h, tid);
  }

  lemma ReadArrives(l: Local, r: Ring, last: bool, tid: nat)
    requires |r.cells| > 0 && l.DeqVal? && l.idx <= l.h
    requires LocalReady(l, r, last, tid) && l.h < r.head
    ensures ArrivesOk(l, r, last, tid, DeqMove(l, r, last, tid))
  {
    assert DeqMove(l, r, last, tid).ring == r;
  }

  lemma MarkingArrives(l: Local, r: Ring, last: bool, tid: nat)
    requires |r.cells| > 0 && l.DeqMark? && LocalReady(l, r, last, tid) && l.h < r.head
    ensures ArrivesOk(l, r, last, tid, DeqMove(l, r, last, tid))
  {
    var m := DeqMove(l, r, last, tid);
    assert forall h :: Holds(m.ring, h, tid) ==> Holds(r, h, tid);
  }

  lemma SkippingArrives(l: Local, r: Ring, last: bool, tid: nat)
    requires |r.cells| > 0 && l.DeqSkip? && LocalReady(l, r, last, tid) && l.h < r.head
    ensures ArrivesOk(l, r, last, tid, DeqMove(l, r, last, tid))
  {
    var m := DeqMove(l, r, last, tid);
    assert forall h :: Holds(m.ring, h, tid) ==> Holds(r, h, tid);
  }

  lemma LeavingArrives(l: Local, r: Ring, last: bool, tid: nat)
    requires |r.cells| > 0 && (l.DeqMark? || l.DeqSkip?)
    requires LocalReady(l, r, last, tid) && l.h < r.head
    ensures ArrivesOk(l, r, last, tid, DeqMove(l, r, last, tid))
  {
    if l.DeqMark? { MarkingArrives(l, r, last, tid); } else { SkippingArrives(l, r, last, tid); }
  }

  lemma IssuingArrives(l: Local, r: Ring, last: bool, tid: nat)
    requires |r.cells| > 0 && l.DeqFaa? && LocalReady(l, r, last, tid) && TicketsAccounted(r)
    ensures ArrivesOk(l, r, last, tid, DeqMove(l, r, last, tid))
  {
    assert forall h :: Holds(FaaHead(r, tid), h, tid) ==> Holds(r, h, tid) || h == r.head;
  }

  predicate Fixes(l: Local) {
    l.FixTail? || l.FixHead? || l.FixAgain? || l.FixCas?
  }

  lemma FixedArrives(l: Local, r: Ring, last: bool, tid: nat)
    requires |r.cells| > 0 && l.FixCas? && LocalReady(l, r, last, tid) && TicketsAccounted(r)
    ensures ArrivesOk(l, r, last, tid, DeqMove(l, r, last, tid))
  {
    assert forall h :: Holds(FixCasTail(r, l.fh), h, tid) ==> Holds(r, h, tid);
  }

  lemma FixingArrives(l: Local, r: Ring, last: bool, tid: nat)
    requires |r.cells| > 0 && Fixes(l) && LocalReady(l, r, last, tid) && TicketsAccounted(r)
    ensures ArrivesOk(l, r, last, tid, DeqMove(l, r, last, tid))
  {
    if l.FixCas? { FixedArrives(l, r, last, tid); }
  }

  lemma CheckingArrives(l: Local, r: Ring, last: bool, tid: nat)
    requires WithinRing(l) && |r.cells| > 0 && !IsEnqueue(l) && !Waiting(l) && !l.DeqFaa? && !Fixes(l)
    requires LocalReady(l, r, last, tid) && TicketsAccounted(r)
    ensures ArrivesOk(l, r, last, tid, DeqMove(l, r, last, tid))
  {
    var m := DeqMove(l, r, last, tid);
    assert forall h :: Holds(m.ring, h, tid) ==> Holds(r, h, tid);
  }

  lemma PassingArrives(l: Local, r: Ring, last: bool, tid: nat)
    requires WithinRing(l) && |r.cells| > 0 && !IsEnqueue(l) && !Waiting(l)
    requires LocalReady(l, r, last, tid) && TicketsAccounted(r)
    ensures ArrivesOk(l, r, last, tid, DeqMove(l, r, last, tid))
  {
    if l.DeqFaa? { IssuingArrives(l, r, last, tid); }
    else if Fixes(l) { FixingArrives(l, r, last, tid); }
    else { CheckingArrives(l, r, last, tid); }
  }

  /** Moves that issue, give up or freeze tickets but touch no cell. */
  lemma TicketMoveKeeps(l: Local, r: Ring, last: bool, tid: nat)
    requires Ready(l, r, last, tid)
    requires l.EnqFaa? || l.EnqClose? || l.DeqShut? || l.DeqFaa? || l.FixCas?
    requires MoveOf(l, r, last, tid).ring != r
    ensures RingInv(MoveOf(l, r, last, tid).ring) && Evolves(r, MoveOf(l, r, last, tid).ring, tid)
  {
    match l {
      case EnqFaa(_, _, _) => FaaTailKeeps(r, tid);
      case EnqClose(_, _, _, _) => CloseKeeps(r, tid);
      case DeqShut(_, _) => CloseKeeps(r, tid);
      case DeqFaa(_) => FaaHeadKeeps(r, tid);
      case FixCas(_, _, ft, fh) => FixCasTailKeeps(r, tid, ft, fh);
    }
    OnlyTicketsKeeps(r, MoveOf(l, r, last, tid).ring, tid);
  }

  lemma AbandonMoveKeeps(r: Ring, tid: nat, t: nat)
    requires RingInv(r) && Writes(r, t, tid)
    ensures RingInv(Abandon(r, t)) && Evolves(r, Abandon(r, t), tid)
  {
    AbandonKeeps(r, tid, t);
    OnlyTicketsKeeps(r, Abandon(r, t), tid);
  }

  lemma StoreMoveKeeps(r: Ring, tid: nat, t: nat, v: Value, idx: nat, unsafe: bool)
    requires RingInv(r) && Writes(r, t, tid) && idx <= t && MayStore(r, t, idx, unsafe)
    requires CellAt(r, t) == Cell(None, idx, unsafe)
    ensures RingInv(Store(r, t, v)) && Evolves(r, Store(r, t, v), tid)
  {
    StorerNotMissed(r, t, idx, unsafe);
    StoreCells(r, t, v, idx, unsafe);
    StoreGone(r, t, v, idx, unsafe);
    StoreKeeps(r, tid, t, v, idx, unsafe);
  }

  lemma TakeMoveKeeps(r: Ring, tid: nat, h: nat, unsafe: bool, v: Value)
    requires RingInv(r) && Holds(r, h, tid) && CellAt(r, h) == Cell(Some(v), h, unsafe)
    ensures RingInv(Take(r, h, unsafe, v)) && Evolves(r, Take(r, h, unsafe, v), tid)
  {
    TakeCells(r, h, unsafe, v);
    TakeTickets(r, tid, h, unsafe, v);
    DepartGone(r, Take(r, h, unsafe, v), h);
  }

  /** A dequeuer leaves a cell that has moved on, ... */
  lemma PassedMoveKeeps(r: Ring, tid: nat, h: nat)
    requires RingInv(r) && Holds(r, h, tid) && CellAt(r, h).idx > h
    ensures RingInv(Leave(r, h)) && Evolves(r, Leave(r, h), tid)
  {
    assert WithCell(r, h, CellAt(r, h)) == r;
    assert h in r.stored ==> h in r.taken;
    LeaveKeeps(r, tid, h, CellAt(r, h));
  }

  /** ... one with an earlier value, which it marks unsafe, ... */
  lemma MarkMoveKeeps(r: Ring, tid: nat, h: nat, val: Value, idx: nat, unsafe: bool)
    requires RingInv(r) && Holds(r, h, tid) && CellAt(r, h) == Cell(Some(val), idx, unsafe) && idx < h
    ensures RingInv(MarkUnsafe(r, h, val, idx)) && Evolves(r, MarkUnsafe(r, h, val, idx), tid)
  {
    MarkCells(r, h, val, idx, unsafe);
    LeaveCells(MarkUnsafe(r, h, val, idx), WithCell(r, h, Cell(Some(val), idx, true)));
    LeaveKeeps(r, tid, h, Cell(Some(val), idx, true));
  }

  /** ... or an empty one, which it moves to the next lap. */
  lemma SkipMoveKeeps(r: Ring, tid: nat, h: nat, idx: nat, unsafe: bool)
    requires RingInv(r) && Holds(r, h, tid) && CellAt(r, h) == Cell(None, idx, unsafe) && idx <= h
    ensures RingInv(SkipEmpty(r, h, unsafe)) && Evolves(r, SkipEmpty(r, h, unsafe), tid)
  {
    SkipCells(r, h, idx, unsafe);
    LeaveCells(SkipEmpty(r, h, unsafe), WithCell(r, h, Cell(None, h + |r.cells|, unsafe)));
    LeaveKeeps(r, tid, h, Cell(None, h + |r.cells|, unsafe));
  }

  lemma DepartMoveKeeps(l: Local, r: Ring, last: bool, tid: nat)
    requires Ready(l, r, last, tid) && (l.DeqVal? || l.DeqMark? || l.DeqSkip?)
    requires DeqMove(l, r, last, tid).ring != r
    ensures RingInv(DeqMove(l, r, last, tid).ring) && Evolves(r, DeqMove(l, r, last, tid).ring, tid)
  {
    if l.DeqVal? { PassedMoveKeeps(r, tid, l.h); }
    else if l.DeqMark? { MarkMoveKeeps(r, tid, l.h, l.val, l.idx, l.unsafe); }
    else { SkipMoveKeeps(r, tid, l.h, l.idx, l.unsafe); }
  }

  lemma MoveKeepsRing(l: Local, r: Ring, last: bool, tid: nat)
    requires Ready(l, r, last, tid)
    ensures RingInv(MoveOf(l, r, last, tid).ring) && Evolves(r, MoveOf(l, r, last, tid).ring, tid)
  {
    if MoveOf(l, r, last, tid).ring == r {
      EvolvesSame(r, tid);
    } else if (l.EnqCas? || l.EnqVal? || l.EnqHead?) && MoveOf(l, r, last, tid).local.EnqFull? {
      AbandonMoveKeeps(r, tid, l.t);
    } else if l.EnqCas? {
      StoreMoveKeeps(r, tid, l.t, l.v, l.idx, l.unsafe);
    } else if l.DeqTake? {
      TakeMoveKeeps(r, tid, l.h, l.unsafe, l.val);
    } else if l.DeqVal? || l.DeqMark? || l.DeqSkip? {
      DepartMoveKeeps(l, r, last, tid);
    } else {
      TicketMoveKeeps(l, r, last, tid);
    }
  }

  lemma AnyMoveOk(l: Local, r: Ring, last: bool, tid: nat)
    requires Ready(l, r, last, tid)
    ensures MoveOk(l, r, last, tid, MoveOf(l, r, last, tid))
  {
    MoveKeepsRing(l, r, last, tid);
    if l.EnqCas? {
      CasArrives(l, r, last, tid);
    } else if IsEnqueue(l) {
      if l.EnqVal? && l.idx <= l.t { SafeMayStore(r, l.t, l.idx); }
      if l.EnqHead? && r.head < l.t { LateMayStore(r, l.t, l.idx); }
      EnqueueArrives(l, r, last, tid);
    } else if l.DeqTake? {
      TakeArrives(l, r, last, tid);
    } else if l.DeqMark? || l.DeqSkip? {
      LeavingArrives(l, r, last, tid);
    } else if l.DeqVal? {
      if l.idx > l.h { PassedArrives(l, r, last, tid); } else { ReadArrives(l, r, last, tid); }
    } else if Waiting(l) {
      LookingArrives(l, r, last, tid);
    } else {
      PassingArrives(l, r, last, tid);
    }
  }

  // ----- Each step keeps the queue invariant -----

  lemma InvWellFormed(s: State, size: nat)
    requires Inv(s, size)
    ensures WellFormed(s, size)
  {
    forall tid | tid in s.threads ensures InRange(s.threads[tid], |s.rings|) {
      assert ThreadOk(tid, s.threads[tid], s.rings);
    }
  }

  lemma MoverReady(s: State, size: nat, tid: nat)
    requires Inv(s, size) && WithinRing(LocalOf(s, tid))
    ensures var l := LocalOf(s, tid);
      l.ring < |s.rings| && Ready(l, s.rings[l.ring], l.ring + 1 == |s.rings|, tid)
  {
    var l := LocalOf(s, tid);
    assert ThreadOk(tid, l, s.rings);
    forall h | Holds(s.rings[l.ring], h, tid) ensures Waiting(l) && l.h == h {
      assert StandsAt(s.threads, tid, l.ring, h);
    }
  }

  lemma ApplyKeeps(s: State, size: nat, tid: nat, m: Move)
    requires Inv(s, size) && WithinRing(LocalOf(s, tid)) && LocalOf(s, tid).ring < |s.rings|
    requires var l := LocalOf(s, tid); MoveOk(l, s.rings[l.ring], l.ring + 1 == |s.rings|, tid, m)
    requires |m.ring.cells| == size
    ensures Inv(Apply(s, tid, LocalOf(s, tid).ring, m), size)
  {
    var l := LocalOf(s, tid);
    var i := l.ring;
    ThreadsKept(s.threads, s.rings, tid, m.local, i, m.ring);
    OwnersKept(s.threads, s.rings, tid, m.local, i, m.ring);
    LogsKept(s.rings, i, m.ring, s.puts, s.gets, m.puts, m.gets);
    ChainKept(s.rings, s.qhead, tid, i, m.ring);
  }

  lemma LinkRings(rings: seq<Ring>, qhead: nat, size: nat, v: Value)
    requires RingsInv(rings, size) && ChainInv(rings, qhead) && rings[|rings| - 1].tail.closed
    ensures RingsInv(rings + [SoloRing(size, v)], size) && ChainInv(rings + [SoloRing(size, v)], qhead)
  {
    SoloKeeps(size, v);
  }

  lemma LinkKeeps(s: State, size: nat, tid: nat, input: Input)
    requires Inv(s, size) && WellFormed(s, size) && LocalOf(s, tid).EnqLink?
    requires LocalOf(s, tid).ring + 1 == |s.rings|
    ensures Inv(Step(s, size, tid, input), size)
  {
    var l := LocalOf(s, tid);
    assert ThreadOk(tid, l, s.rings);
    LinkRings(s.rings, s.qhead, size, l.v);
    LinkThreads(s.threads, s.rings, tid, SoloRing(size, l.v));
    LinkLogs(s.rings, s.puts, s.gets, size, l.v);
  }

  lemma LinkThreads(threads: map<nat, Local>, rings: seq<Ring>, tid: nat, r': Ring)
    requires ThreadsOk(threads, rings) && OwnersWait(threads, rings)
    requires r'.holders == map[]
    requires forall i, h :: !StandsAt(threads, tid, i, h)
    ensures ThreadsOk(threads[tid := Idle], rings + [r']) && OwnersWait(threads[tid := Idle], rings + [r'])
  {
    var rings' := rings + [r'];
    forall u | u in threads && u != tid ensures ThreadOk(u, threads[u], rings') {
      assert ThreadOk(u, threads[u], rings);
    }
    forall k, h | 0 <= k < |rings'| && h in rings'[k].holders
      ensures StandsAt(threads[tid := Idle], rings'[k].holders[h], k, h)
    {
      assert StandsAt(threads, rings[k].holders[h], k, h);
    }
  }

  lemma LinkLogs(rings: seq<Ring>, puts: seq<Event>, gets: seq<Event>, size: nat, v: Value)
    requires Logs(rings, puts, gets) && size > 0
    ensures Logs(rings + [SoloRing(size, v)], puts + [Event(|rings|, 0, v)], gets)
  {
    var rings', puts' := rings + [SoloRing(size, v)], puts + [Event(|rings|, 0, v)];
    forall k | 0 <= k < |puts'| ensures WasStored(rings', puts'[k]) {
      if k < |puts| { assert WasStored(rings, puts[k]); }
    }
    forall k | 0 <= k < |gets| ensures WasTaken(rings', gets[k]) {
      assert WasTaken(rings, gets[k]);
    }
    forall j, t | 0 <= j < |rings'| && t in rings'[j].stored ensures Event(j, t, rings'[j].stored[t]) in puts' {
      if j < |rings| { assert Event(j, t, rings[j].stored[t]) in puts; } else { assert puts'[|puts|] in puts'; }
    }
  }

  lemma SwingKeeps(s: State, size: nat, tid: nat, input: Input)
    requires Inv(s, size) && WellFormed(s, size) && LocalOf(s, tid).DeqSwing?
    ensures Inv(Step(s, size, tid, input), size)
  {
    assert ThreadOk(tid, LocalOf(s, tid), s.rings);
    GotoThreads(s.threads, s.rings, tid, DeqHead);
    SwingIs(s, size, tid, input);
  }

  lemma SwingIs(s: State, size: nat, tid: nat, input: Input)
    requires WellFormed(s, size) && LocalOf(s, tid).DeqSwing?
    ensures var i := LocalOf(s, tid).ring;
      Step(s, size, tid, input) == Goto(s, tid, DeqHead).(qhead := if s.qhead == i then i + 1 else s.qhead)
  {
  }

  lemma RingStepKeeps(s: State, size: nat, tid: nat)
    requires Inv(s, size) && WithinRing(LocalOf(s, tid))
    ensures var l := LocalOf(s, tid);
      l.ring < |s.rings| && |s.rings[l.ring].cells| > 0
      && Inv(Apply(s, tid, l.ring, MoveOf(l, s.rings[l.ring], l.ring + 1 == |s.rings|, tid)), size)
  {
    var l := LocalOf(s, tid);
    MoverReady(s, size, tid);
    AnyMoveOk(l, s.rings[l.ring], l.ring + 1 == |s.rings|, tid);
    ApplyKeeps(s, size, tid, MoveOf(l, s.rings[l.ring], l.ring + 1 == |s.rings|, tid));
  }

  lemma StepWithinRing(s: State, size: nat, tid: nat, input: Input)
    requires WellFormed(s, size) && WithinRing(LocalOf(s, tid))
    ensures var l := LocalOf(s, tid);
      Step(s, size, tid, input) == Apply(s, tid, l.ring, MoveOf(l, s.rings[l.ring], l.ring + 1 == |s.rings|, tid))
  {
  }

  lemma StepKeepsInv(s: State, size: nat, tid: nat, input: Input)
    requires Inv(s, size) && WellFormed(s, size)
    ensures Inv(Step(s, size, tid, input), size)
  {
    if WithinRing(LocalOf(s, tid)) {
      StepWithinRing(s, size, tid, input);
      RingStepKeeps(s, size, tid);
    } else {
      QueueStepKeeps(s, size, tid, input);
    }
  }

  lemma StepIsGoto(s: State, size: nat, tid: nat, input: Input)
    requires WellFormed(s, size) && !WithinRing(LocalOf(s, tid)) && !LocalOf(s, tid).DeqSwing?
    requires LocalOf(s, tid).EnqLink? ==> LocalOf(s, tid).ring + 1 < |s.rings|
    ensures tid in Step(s, size, tid, input).threads
    ensures Step(s, size, tid, input) == Goto(s, tid, Step(s, size, tid, input).threads[tid])
  {
  }

  /** Steps that touch no ring: calls, following a link, linking a ring, moving the queue's head. */
  lemma QueueStepKeeps(s: State, size: nat, tid: nat, input: Input)
    requires Inv(s, size) && WellFormed(s, size) && !WithinRing(LocalOf(s, tid))
    ensures Inv(Step(s, size, tid, input), size)
  {
    var l := LocalOf(s, tid);
    if l.DeqSwing? {
      SwingKeeps(s, size, tid, input);
    } else if l.EnqLink? && l.ring + 1 == |s.rings| {
      LinkKeeps(s, size, tid, input);
    } else {
      FollowKeeps(s, size, tid, input);
    }
  }

  /** Where such a step goes needs nothing but the ring it goes to. */
  lemma FollowOk(s: State, size: nat, tid: nat, input: Input)
    requires WellFormed(s, size) && !WithinRing(LocalOf(s, tid)) && !LocalOf(s, tid).DeqSwing?
    requires LocalOf(s, tid).EnqLink? ==> LocalOf(s, tid).ring + 1 < |s.rings|
    ensures tid in Step(s, size, tid, input).threads && ThreadOk(tid, Step(s, size, tid, input).threads[tid], s.rings)
    ensures forall i, h :: !StandsAt(s.threads, tid, i, h)
  {
  }

  lemma FollowKeeps(s: State, size: nat, tid: nat, input: Input)
    requires Inv(s, size) && WellFormed(s, size) && !WithinRing(LocalOf(s, tid)) && !LocalOf(s, tid).DeqSwing?
    requires LocalOf(s, tid).EnqLink? ==> LocalOf(s, tid).ring + 1 < |s.rings|
    ensures Inv(Step(s, size, tid, input), size)
  {
    StepIsGoto(s, size, tid, input);
    FollowOk(s, size, tid, input);
    GotoKeeps(s, size, tid, Step(s, size, tid, input).threads[tid]);
  }

  lemma InitInv(size: nat)
    requires size > 0
    ensures Inv(Init(size), size)
  {
    var r := EmptyRing(size);
    assert forall h: nat :: !Gone(r, h);
  }

  // ----- Whole runs -----

  /** Who moves, and what an idle mover calls: any interleaving of any number of threads. */
  type Schedule = seq<(nat, Input)>

  ghost function Run(s: State, size: nat, schedule: Schedule): State
    decreases |schedule|
  {
    if schedule == [] || !WellFormed(s, size) then s
    else Run(Step(s, size, schedule[0].0, schedule[0].1), size, schedule[1..])
  }

  /** The state after a schedule. */
  ghost function Reached(size: nat, schedule: Schedule): State
    requires size > 0
  {
    Run(Init(size), size, schedule)
  }

  lemma {:induction false} RunKeepsInv(s: State, size: nat, schedule: Schedule)
    requires Inv(s, size)
    ensures Inv(Run(s, size, schedule), size)
    decreases |schedule|
  {
    if schedule != [] && WellFormed(s, size) {
      StepKeepsInv(s, size, schedule[0].0, schedule[0].1);
      RunKeepsInv(Step(s, size, schedule[0].0, schedule[0].1), size, schedule[1..]);
    }
  }

  lemma ReachedInv(size: nat, schedule: Schedule)
    requires size > 0
    ensures Inv(Reached(size, schedule), size) && WellFormed(Reached(size, schedule), size)
  {
    InitInv(size);
    RunKeepsInv(Init(size), size, schedule);
    InvWellFormed(Reached(size, schedule), size);
  }

  /** Ring safety: dequeuer h of a ring returns only what enqueuer h stored in that ring; nothing is returned
      twice, nothing is stored twice, and whatever was returned had been enqueued. */
  lemma RingSafety(size: nat, schedule: Schedule)
    requires size > 0
    ensures var s := Reached(size, schedule);
      && (forall k :: 0 <= k < |s.gets| ==> s.gets[k] in s.puts)
      && (forall a, b :: 0 <= a < b < |s.gets| ==>
            !(s.gets[a].ring == s.gets[b].ring && s.gets[a].ticket == s.gets[b].ticket))
      && (forall a, b :: 0 <= a < b < |s.puts| ==>
            !(s.puts[a].ring == s.puts[b].ring && s.puts[a].ticket == s.puts[b].ticket))
  {
    var s := Reached(size, schedule);
    ReachedInv(size, schedule);
    GotWasPut(s, size);
    LogTicketsDistinct(s);
  }

  lemma GotWasPut(s: State, size: nat)
    requires Inv(s, size)
    ensures forall k :: 0 <= k < |s.gets| ==> s.gets[k] in s.puts
  {
    forall k | 0 <= k < |s.gets| ensures s.gets[k] in s.puts {
      var e := s.gets[k];
      assert WasTaken(s.rings, e);
      assert RingInv(s.rings[e.ring]);
      assert Event(e.ring, e.ticket, s.rings[e.ring].stored[e.ticket]) in s.puts;
    }
  }

  lemma LogTicketsDistinct(s: State)
    requires Logs(s.rings, s.puts, s.gets)
    ensures forall a, b :: 0 <= a < b < |s.gets| ==>
      !(s.gets[a].ring == s.gets[b].ring && s.gets[a].ticket == s.gets[b].ticket)
    ensures forall a, b :: 0 <= a < b < |s.puts| ==>
      !(s.puts[a].ring == s.puts[b].ring && s.puts[a].ticket == s.puts[b].ticket)
  {
    forall a, b | 0 <= a < b < |s.gets|
      ensures !(s.gets[a].ring == s.gets[b].ring && s.gets[a].ticket == s.gets[b].ticket)
    {
      assert WasTaken(s.rings, s.gets[a]) && WasTaken(s.rings, s.gets[b]);
    }
    forall a, b | 0 <= a < b < |s.puts|
      ensures !(s.puts[a].ring == s.puts[b].ring && s.puts[a].ticket == s.puts[b].ticket)
    {
      assert WasStored(s.rings, s.puts[a]) && WasStored(s.rings, s.puts[b]);
    }
  }

  /** The cell of a ticket holds its value, and its dequeuer has not left that cell empty-handed. */
  ghost predicate Waits(s: State, e: Event) {
    && e.ring < |s.rings| && |s.rings[e.ring].cells| > 0
    && CellAt(s.rings[e.ring], e.ticket).val == Some(e.value)
    && CellAt(s.rings[e.ring], e.ticket).idx == e.ticket
    && e.ticket !in s.rings[e.ring].left
  }

  lemma PutWaits(s: State, size: nat, e: Event)
    requires Inv(s, size) && e in s.puts && e !in s.gets
    ensures Waits(s, e)
  {
    var k :| 0 <= k < |s.puts| && s.puts[k] == e;
    assert WasStored(s.rings, e);
    assert RingInv(s.rings[e.ring]);
  }

  /** No loss: whatever an enqueue stored and no dequeue returned sits in its cell, under its own ticket, and its
      dequeuer has not left that cell empty-handed. */
  lemma NothingLost(size: nat, schedule: Schedule, e: Event)
    requires size > 0
    ensures var s := Reached(size, schedule); e in s.puts && e !in s.gets ==> Waits(s, e)
  {
    var s := Reached(size, schedule);
    ReachedInv(size, schedule);
    if e in s.puts && e !in s.gets { PutWaits(s, size, e); }
  }

  /** An enqueuer's double-word CAS succeeds only if the dequeuer with its ticket has not yet left the cell. */
  lemma StoreOnlyBeforeDequeuer(size: nat, schedule: Schedule, tid: nat, input: Input)
    requires size > 0
    ensures var s := Reached(size, schedule);
      && WellFormed(s, size)
      && var l := LocalOf(s, tid);
         l.EnqCas? && |Step(s, size, tid, input).puts| > |s.puts| ==> l.ring < |s.rings| && !Gone(s.rings[l.ring], l.t)
  {
    var s := Reached(size, schedule);
    ReachedInv(size, schedule);
    if LocalOf(s, tid).EnqCas? && |Step(s, size, tid, input).puts| > |s.puts| { StorerIsInTime(s, size, tid, input); }
  }

  lemma StorerIsInTime(s: State, size: nat, tid: nat, input: Input)
    requires Inv(s, size) && WellFormed(s, size) && LocalOf(s, tid).EnqCas?
    requires |Step(s, size, tid, input).puts| > |s.puts|
    ensures var l := LocalOf(s, tid); l.ring < |s.rings| && !Gone(s.rings[l.ring], l.t)
  {
    MoverReady(s, size, tid);
    var l := LocalOf(s, tid);
    StorerNotMissed(s.rings[l.ring], l.t, l.idx, l.unsafe);
  }

  /** Hand-over strands nothing: once the head has moved past a ring, that ring is closed, every ticket issued
      there while it was open has a dequeuer, and each stored value is returned or awaited at its cell. */
  lemma HandOver(size: nat, schedule: Schedule, i: nat)
    requires size > 0
    ensures var s := Reached(size, schedule);
      i < s.qhead ==>
        && i < |s.rings| && s.rings[i].tail.closed && s.rings[i].openTail <= s.rings[i].head
        && forall t :: t in s.rings[i].stored && t !in s.rings[i].taken ==>
             t in s.rings[i].holders && StandsAt(s.threads, s.rings[i].holders[t], i, t)
  {
    var s := Reached(size, schedule);
    ReachedInv(size, schedule);
    if i < s.qhead { PassedRing(s, size, i); }
  }

  lemma PassedRing(s: State, size: nat, i: nat)
    requires Inv(s, size) && i < s.qhead
    ensures i < |s.rings| && s.rings[i].tail.closed && s.rings[i].openTail <= s.rings[i].head
    ensures forall t :: t in s.rings[i].stored && t !in s.rings[i].taken ==>
      t in s.rings[i].holders && StandsAt(s.threads, s.rings[i].holders[t], i, t)
  {
    var r := s.rings[i];
    assert Sealed(r) && RingInv(r);
    forall t | t in r.stored && t !in r.taken ensures t in r.holders && StandsAt(s.threads, r.holders[t], i, t) {
      assert t < r.openTail <= r.head;
      assert Gone(r, t) || t in r.holders;
    }
  }

  /** What every step, and so every run, only ever adds to: operations completed, tickets, closed rings. */
  ghost predicate Extends(s: State, s': State) {
    && s.puts <= s'.puts
    && s.gets <= s'.gets
    && s.qhead <= s'.qhead
    && |s.rings| <= |s'.rings|
    && (forall i :: 0 <= i < |s.rings| ==> RingGrows(s.rings[i], s'.rings[i]))
  }

  ghost predicate RingGrows(r: Ring, r': Ring) {
    && r.head <= r'.head
    && (r.tail.closed ==> r'.tail.closed && r'.openTail == r.openTail)
    && (forall t :: t in r.stored ==> t in r'.stored && r'.stored[t] == r.stored[t])
    && (forall t :: t in r.taken ==> t in r'.taken && r'.taken[t] == r.taken[t])
  }

  lemma StepExtends(s: State, size: nat, tid: nat, input: Input)
    requires Inv(s, size) && WellFormed(s, size)
    ensures Extends(s, Step(s, size, tid, input))
  {
    var l := LocalOf(s, tid);
    if WithinRing(l) {
      MoveGrows(s, size, tid);
      StepWithinRing(s, size, tid, input);
      ApplyExtends(s, tid, l.ring, MoveOf(l, s.rings[l.ring], l.ring + 1 == |s.rings|, tid));
    } else {
      QueueStepExtends(s, size, tid, input);
    }
  }

  lemma ApplyExtends(s: State, tid: nat, i: nat, m: Move)
    requires i < |s.rings| && RingGrows(s.rings[i], m.ring)
    ensures Extends(s, Apply(s, tid, i, m))
  {
  }

  lemma QueueStepExtends(s: State, size: nat, tid: nat, input: Input)
    requires WellFormed(s, size) && !WithinRing(LocalOf(s, tid))
    ensures Extends(s, Step(s, size, tid, input))
  {
  }

  lemma MoveGrows(s: State, size: nat, tid: nat)
    requires Inv(s, size) && WellFormed(s, size) && WithinRing(LocalOf(s, tid))
    ensures var l := LocalOf(s, tid);
      RingGrows(s.rings[l.ring], MoveOf(l, s.rings[l.ring], l.ring + 1 == |s.rings|, tid).ring)
  {
    var l := LocalOf(s, tid);
    MoverReady(s, size, tid);
    MoveKeepsRing(l, s.rings[l.ring], l.ring + 1 == |s.rings|, tid);
  }

  /** Over a whole run nothing completed is undone: in particular a closed ring stays closed at the same ticket. */
  lemma {:induction false} RunExtends(s: State, size: nat, schedule: Schedule)
    requires Inv(s, size)
    ensures Extends(s, Run(s, size, schedule))
    decreases |schedule|
  {
    if schedule != [] && WellFormed(s, size) {
      var mid := Step(s, size, schedule[0].0, schedule[0].1);
      StepKeepsInv(s, size, schedule[0].0, schedule[0].1);
      StepExtends(s, size, schedule[0].0, schedule[0].1);
      RunExtends(mid, size, schedule[1..]);
      ExtendsTransitive(s, mid, Run(mid, size, schedule[1..]));
    }
  }

  lemma ExtendsTransitive(a: State, b: State, c: State)
    requires Extends(a, b) && Extends(b, c)
    ensures Extends(a, c)
  {
    forall i | 0 <= i < |a.rings| ensures RingGrows(a.rings[i], c.rings[i]) {
      assert RingGrows(a.rings[i], b.rings[i]) && RingGrows(b.rings[i], c.rings[i]);
    }
  }

  /** A stored value stays in its cell, however the run goes on, until its own dequeuer returns exactly that value. */
  lemma StaysUntilTaken(size: nat, first: Schedule, e: Event, more: Schedule)
    requires size > 0
    ensures var later := Reached(size, first + more);
      e in Reached(size, first).puts ==> e in later.gets || Waits(later, e)
  {
    var s := Reached(size, first);
    ReachedInv(size, first);
    ReachedInv(size, first + more);
    RunExtends(s, size, more);
    InitInv(size);
    RunConcat(Init(size), size, first, more);
    var later := Reached(size, first + more);
    if e in s.puts && e !in later.gets { PutWaits(later, size, e); }
  }

  lemma {:induction false} RunConcat(s: State, size: nat, a: Schedule, b: Schedule)
    requires Inv(s, size)
    ensures Run(s, size, a + b) == Run(Run(s, size, a), size, b)
    decreases |a|
  {
    if a == [] {
      assert a + b == b;
    } else {
      assert (a + b)[1..] == a[1..] + b;
      InvWellFormed(s, size);
      StepKeepsInv(s, size, a[0].0, a[0].1);
      RunConcat(Step(s, size, a[0].0, a[0].1), size, a[1..], b);
    }
  }
}
