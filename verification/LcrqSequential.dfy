/** The queue of linked rings, one operation at a time: it behaves as an unbounded first-in first-out queue. */
module LcrqSequential {
  import opened Wrappers
  import C = LcrqConcurrent

  /** A ring seen as a value. */
  datatype View<T> = View(head: nat, tail: nat, closed: bool, cells: seq<C.Cell<T>>)

  // ----- One ring -----

  function Slot(t: nat, n: nat): (j: nat)
    requires n > 0
    ensures j < n
  {
    C.Lap(t, n)
  }

  lemma {:induction false} SlotsDiffer(a: nat, b: nat, n: nat)
    requires n > 0 && a < b < a + n
    ensures Slot(a, n) != Slot(b, n)
  {
    if a >= n { SlotsDiffer(a - n, b - n, n); }
    else if b >= n { assert Slot(b, n) == Slot(b - n, n) == b - n; }
  }

  /** The first ticket without a value: closing a ring burns the ticket that found it full. */
  function Last<T>(v: View<T>): int {
    if v.closed then v.tail - 1 else v.tail
  }

  /** What the cell for ticket k holds while k is the next ticket to come to it. */
  predicate CellOk<T>(v: View<T>, k: nat)
    requires |v.cells| > 0
  {
    var cell := v.cells[Slot(k, |v.cells|)];
    cell.idx == k && !cell.unsafe && (cell.val.Some? <==> k < Last(v))
  }

  ghost predicate RingOk<T>(v: View<T>) {
    && |v.cells| > 0 && v.head <= v.tail && Last(v) <= v.head + |v.cells|
    && (forall k: nat :: v.head <= k < v.head + |v.cells| ==> CellOk(v, k))
  }

  /** The values in a ring, oldest first. */
  ghost function Values<T>(v: View<T>): seq<T>
    requires RingOk(v)
  {
    ValuesFrom(v, v.head)
  }

  ghost function ValuesFrom<T>(v: View<T>, k: nat): seq<T>
    requires RingOk(v) && v.head <= k
    decreases Last(v) - k
  {
    if k >= Last(v) then []
    else
      assert CellOk(v, k);
      [v.cells[Slot(k, |v.cells|)].val.value] + ValuesFrom(v, k + 1)
  }

  /** Ticket `tail` finds its cell empty: the value is stored. */
  function Stored<T>(v: View<T>, x: T): View<T>
    requires |v.cells| > 0
  {
    View(v.head, v.tail + 1, v.closed, v.cells[Slot(v.tail, |v.cells|) := C.Cell(Some(x), v.tail, false)])
  }

  /** Ticket `tail` finds the ring full: the ring is closed. */
  function Closed<T>(v: View<T>): View<T> {
    View(v.head, v.tail + 1, true, v.cells)
  }

  /** Ticket `head` leaves its cell empty for the next lap, having taken its value or found none. */
  function Taken<T>(v: View<T>): View<T>
    requires |v.cells| > 0
  {
    View(v.head + 1, v.tail, v.closed, v.cells[Slot(v.head, |v.cells|) := C.Cell(None, v.head + |v.cells|, false)])
  }

  lemma StoredCells<T>(v: View<T>, x: T, k: nat)
    requires RingOk(v) && !v.closed && v.tail < v.head + |v.cells| && v.head <= k < v.head + |v.cells|
    ensures CellOk(Stored(v, x), k)
    ensures k != v.tail ==> Stored(v, x).cells[Slot(k, |v.cells|)] == v.cells[Slot(k, |v.cells|)]
  {
    assert CellOk(v, k);
    if k < v.tail { SlotsDiffer(k, v.tail, |v.cells|); }
    if v.tail < k { SlotsDiffer(v.tail, k, |v.cells|); }
  }

  lemma StoredRing<T>(v: View<T>, x: T)
    requires RingOk(v) && !v.closed && v.tail < v.head + |v.cells|
    ensures RingOk(Stored(v, x))
  {
    forall k: nat | v.head <= k < v.head + |v.cells| ensures CellOk(Stored(v, x), k) { StoredCells(v, x, k); }
  }

  lemma {:induction false} StoredValues<T>(v: View<T>, x: T, k: nat)
    requires RingOk(v) && !v.closed && v.tail < v.head + |v.cells| && v.head <= k <= v.tail
    ensures RingOk(Stored(v, x)) && ValuesFrom(Stored(v, x), k) == ValuesFrom(v, k) + [x]
    decreases v.tail - k
  {
    StoredRing(v, x);
    StoredCells(v, x, k);
    if k < v.tail {
      StoredValues(v, x, k + 1);
    } else {
      assert ValuesFrom(Stored(v, x), k + 1) == [];
    }
  }

  lemma ClosedRing<T>(v: View<T>)
    requires RingOk(v) && !v.closed
    ensures RingOk(Closed(v)) && Values(Closed(v)) == Values(v)
  {
    forall k: nat | v.head <= k < v.head + |v.cells| ensures CellOk(Closed(v), k) { assert CellOk(v, k); }
    SameValues(v, Closed(v), v.head);
  }

  lemma {:induction false} SameValues<T>(v: View<T>, w: View<T>, k: nat)
    requires RingOk(v) && RingOk(w) && v.head <= k && w.head <= k && Last(v) == Last(w) && |v.cells| == |w.cells|
    requires forall j: nat :: k <= j < Last(v) ==> w.cells[Slot(j, |v.cells|)] == v.cells[Slot(j, |v.cells|)]
    ensures ValuesFrom(v, k) == ValuesFrom(w, k)
    decreases Last(v) - k
  {
    if k < Last(v) { SameValues(v, w, k + 1); }
  }

  lemma TakenRing<T>(v: View<T>)
    requires RingOk(v) && v.head < v.tail
    ensures RingOk(Taken(v))
    ensures forall j: nat :: v.head < j < v.head + |v.cells| ==>
      Taken(v).cells[Slot(j, |v.cells|)] == v.cells[Slot(j, |v.cells|)]
  {
    var n := |v.cells|;
    forall k: nat | v.head < k < v.head + n ensures CellOk(Taken(v), k) && Taken(v).cells[Slot(k, n)] == v.cells[Slot(k, n)] {
      assert CellOk(v, k);
      SlotsDiffer(v.head, k, n);
    }
    assert CellOk(Taken(v), v.head + n);
  }

  /** Taking the value of ticket `head` removes the oldest value. */
  lemma TakenValues<T>(v: View<T>)
    requires RingOk(v) && v.head < Last(v)
    ensures RingOk(Taken(v)) && CellOk(v, v.head)
    ensures Values(v) == [v.cells[Slot(v.head, |v.cells|)].val.value] + Values(Taken(v))
  {
    TakenRing(v);
    SameValues(v, Taken(v), v.head + 1);
  }

  // ----- All rings -----

  /** All rings but the last are closed; the rings before `at` are behind the queue's head, those after it untouched. */
  ghost predicate QueueOk<T>(views: seq<View<T>>, at: nat) {
    && at < |views|
    && (forall i :: 0 <= i < |views| ==> RingOk(views[i]) && (views[i].closed <==> i < |views| - 1))
    && (forall i :: at < i < |views| ==> views[i].head == 0 && Last(views[i]) >= 1)
    && views[at].head <= Last(views[at])
  }

  ghost predicate AllOk<T>(views: seq<View<T>>) {
    forall i :: 0 <= i < |views| ==> RingOk(views[i])
  }

  /** The values of several rings, one after the other. */
  ghost function AllValues<T>(views: seq<View<T>>): seq<T>
    requires AllOk(views)
  {
    if views == [] then [] else Values(views[0]) + AllValues(views[1..])
  }

  ghost function Contents<T>(views: seq<View<T>>, at: nat): seq<T>
    requires QueueOk(views, at)
  {
    AllValues(views[at..])
  }

  lemma {:induction false} ReplaceLast<T>(views: seq<View<T>>, v: View<T>, more: seq<T>)
    requires views != [] && AllOk(views) && RingOk(v) && Values(v) == Values(views[|views| - 1]) + more
    ensures AllOk(views[|views| - 1 := v]) && AllValues(views[|views| - 1 := v]) == AllValues(views) + more
  {
    var n := |views| - 1;
    if n == 0 {
      assert views[0 := v] == [v] && AllValues([v][1..]) == [] && AllValues(views[1..]) == [];
    } else {
      var rest := views[1..];
      assert rest[n - 1] == views[n] && views[n := v][0] == views[0];
      assert views[n := v][1..] == rest[n - 1 := v];
      ReplaceLast(rest, v, more);
      assert Values(views[0]) + (AllValues(rest) + more) == Values(views[0]) + AllValues(rest) + more;
    }
  }

  lemma {:induction false} AppendRing<T>(views: seq<View<T>>, v: View<T>)
    requires AllOk(views) && RingOk(v)
    ensures AllOk(views + [v]) && AllValues(views + [v]) == AllValues(views) + Values(v)
  {
    if views == [] {
      assert AllValues([v][1..]) == [];
    } else {
      assert (views + [v])[1..] == views[1..] + [v];
      AppendRing(views[1..], v);
      assert Values(views[0]) + (AllValues(views[1..]) + Values(v)) == Values(views[0]) + AllValues(views[1..]) + Values(v);
    }
  }

  /** A fresh ring with one value in its first cell. */
  function Solo<T>(n: nat, x: T): View<T>
    requires n > 0
  {
    View(0, 1, false, seq(n, i requires 0 <= i < n => if i == 0 then C.Cell(Some(x), 0, false) else C.Cell(None, i, false)))
  }

  lemma SoloRing<T>(n: nat, x: T)
    requires n > 0
    ensures RingOk(Solo(n, x)) && Values(Solo(n, x)) == [x]
  {
    var v := Solo(n, x);
    forall k: nat | 0 <= k < n ensures CellOk(v, k) {
    }
    assert ValuesFrom(v, 1) == [];
  }

  /** Storing in the last ring enqueues. */
  lemma EnqueueStores<T>(views: seq<View<T>>, at: nat, x: T)
    requires QueueOk(views, at)
    requires var v := views[|views| - 1]; v.tail < v.head + |v.cells|
    ensures var views' := views[|views| - 1 := Stored(views[|views| - 1], x)];
      QueueOk(views', at) && Contents(views', at) == Contents(views, at) + [x]
  {
    var n := |views| - 1;
    var v := views[n];
    StoredValues(v, x, v.head);
    var views' := views[n := Stored(v, x)];
    assert views'[at..] == views[at..][n - at := Stored(v, x)];
    ReplaceLast(views[at..], Stored(v, x), [x]);
  }

  /** The rings after the last one was closed and a new one linked behind it. */
  function Linked<T>(views: seq<View<T>>, x: T, size: nat): seq<View<T>>
    requires views != [] && size > 0
  {
    views[|views| - 1 := Closed(views[|views| - 1])] + [Solo(size, x)]
  }

  lemma LinkedOk<T>(views: seq<View<T>>, at: nat, x: T, size: nat)
    requires QueueOk(views, at) && size > 0
    ensures QueueOk(Linked(views, x, size), at)
  {
    ClosedRing(views[|views| - 1]);
    SoloRing(size, x);
  }

  lemma LinkedValues<T>(views: seq<View<T>>, x: T, size: nat)
    requires AllOk(views) && views != [] && !views[|views| - 1].closed && size > 0
    ensures AllOk(Linked(views, x, size)) && AllValues(Linked(views, x, size)) == AllValues(views) + [x]
  {
    var n := |views| - 1;
    ClosedRing(views[n]);
    SoloRing(size, x);
    assert Values(Closed(views[n])) == Values(views[n]) + [];
    ReplaceLast(views, Closed(views[n]), []);
    AppendRing(views[n := Closed(views[n])], Solo(size, x));
    assert AllValues(views) + [] == AllValues(views);
  }

  /** Closing the full last ring and linking a new one with the value enqueues. */
  lemma EnqueueLinks<T>(views: seq<View<T>>, at: nat, x: T, size: nat)
    requires QueueOk(views, at) && size > 0
    ensures QueueOk(Linked(views, x, size), at)
    ensures Contents(Linked(views, x, size), at) == Contents(views, at) + [x]
  {
    LinkedOk(views, at, x, size);
    LinkedValues(views[at..], x, size);
    assert Linked(views, x, size)[at..] == Linked(views[at..], x, size);
  }

  /** Taking from the head ring dequeues the oldest value. */
  lemma DequeueTakes<T>(views: seq<View<T>>, at: nat)
    requires QueueOk(views, at) && views[at].head < Last(views[at])
    ensures var v := views[at];
      var views' := views[at := Taken(v)];
      && CellOk(v, v.head) && QueueOk(views', at)
      && Contents(views, at) == [v.cells[Slot(v.head, |v.cells|)].val.value] + Contents(views', at)
  {
    var v := views[at];
    TakenValues(v);
    var views' := views[at := Taken(v)];
    assert views'[at..][1..] == views[at..][1..];
  }

  /** When the head ring is used up, taking its last ticket and moving on changes nothing. */
  lemma DequeueMovesOn<T>(views: seq<View<T>>, at: nat)
    requires QueueOk(views, at) && at + 1 < |views| && views[at].head == Last(views[at])
    ensures var views' := views[at := Taken(views[at])];
      && QueueOk(views', at + 1) && Contents(views', at + 1) == Contents(views, at)
      && views'[at + 1] == views[at + 1] && views[at + 1].head < Last(views[at + 1])
  {
    TakenRing(views[at]);
    var views' := views[at := Taken(views[at])];
    assert views'[at + 1..] == views[at + 1..] == views[at..][1..];
    assert Values(views[at]) == [];
  }

  /** The quick test at the start of a dequeue is exact. */
  lemma EmptyTest<T>(views: seq<View<T>>, at: nat)
    requires QueueOk(views, at)
    ensures Contents(views, at) == [] <==> views[at].tail < views[at].head + 1 && at == |views| - 1
  {
    assert Contents(views, at) == Values(views[at]) + AllValues(views[at..][1..]);
    if at < |views| - 1 {
      assert views[at..][1..] == views[at + 1..];
      assert AllValues(views[at + 1..]) == Values(views[at + 1]) + AllValues(views[at + 1..][1..]);
    } else {
      assert views[at..][1..] == [];
    }
  }

  // ----- The queue in memory -----

  class Ring<T> {
    var head: nat
    var tail: nat
    var closed: bool
    var next: Ring?<T>
    const cells: array<C.Cell<T>>

    ghost function AsView(): View<T>
      reads this, cells
    {
      View(head, tail, closed, cells[..])
    }

    /** An empty ring, or with a value one that holds it in its first cell. */
    constructor (size: nat, first: Option<T>)
      requires size > 0
      ensures fresh(cells) && cells.Length == size && next == null
      ensures first.Some? ==> AsView() == Solo(size, first.value)
      ensures first.None? ==> AsView() == View(0, 0, false, seq(size, i requires 0 <= i < size => C.Cell(None, i, false)))
    {
      cells := new C.Cell<T>[size](i requires 0 <= i < size =>
        if i == 0 && first.Some? then C.Cell(first, 0, false) else C.Cell(None, i, false));
      head, tail, closed, next := 0, if first.Some? then 1 else 0, false, null;
    }

    /** Draw an enqueue ticket on the open last ring: store, or close the ring if the ticket finds it full. */
    method Put(x: T) returns (stored: bool)
      requires RingOk(AsView()) && !closed && next == null
      modifies this`tail, this`closed, cells
      ensures stored == (old(tail) < head + cells.Length)
      ensures AsView() == if stored then Stored(old(AsView()), x) else Closed(old(AsView()))
    {
      var t := tail;
      tail := tail + 1;
      var slot := C.Lap(t, cells.Length);
      FreeCell(AsView().(tail := t));
      var idx, val, unsafe := cells[slot].idx, cells[slot].val, cells[slot].unsafe;
      if val.None? && idx <= t && (!unsafe || head < t) {
        cells[slot] := C.Cell(Some(x), t, false);
        return true;
      }
      assert t - head >= cells.Length;
      closed := true;
      return false;
    }

    /** Draw a dequeue ticket: take its value, or leave the cell to the next lap if the closed ring has none for it. */
    method Take() returns (r: Option<T>)
      requires RingOk(AsView()) && head <= Last(AsView()) && (head == Last(AsView()) ==> closed)
      modifies this`head, cells
      ensures AsView() == Taken(old(AsView()))
      ensures CellOk(old(AsView()), old(head))
      ensures r == old(cells[Slot(head, cells.Length)].val)
    {
      var h := head;
      head := head + 1;
      var slot := C.Lap(h, cells.Length);
      assert CellOk(old(AsView()), h);
      var idx, val, unsafe := cells[slot].idx, cells[slot].val, cells[slot].unsafe;
      assert idx == h && !unsafe;
      if val.Some? {
        cells[slot] := C.Cell(None, h + cells.Length, unsafe);
        return val;
      }
      var t := tail;
      assert t < h + 1 || closed;
      cells[slot] := C.Cell(None, h + cells.Length, false);
      return None;
    }

    /** Bring an open ring's tail up to its head; a closed ring stays as it is. */
    method FixState()
      modifies this`tail
      ensures tail == if !closed && old(tail) < head then head else old(tail)
    {
      if !closed && head > tail { tail := head; }
    }
  }

  /** The next enqueue ticket finds its cell empty exactly when the ring is not full; else the cell holds the ticket
      of a whole lap before. */
  lemma FreeCell<T>(v: View<T>)
    requires RingOk(v) && !v.closed
    ensures var cell := v.cells[Slot(v.tail, |v.cells|)];
      if v.tail < v.head + |v.cells| then cell.val.None? && cell.idx == v.tail && !cell.unsafe else cell.val.Some?
  {
    if v.tail < v.head + |v.cells| { assert CellOk(v, v.tail); }
    else {
      assert CellOk(v, v.head);
      assert Slot(v.tail, |v.cells|) == Slot(v.head, |v.cells|);
    }
  }

  ghost function NextOf<T>(rings: seq<Ring<T>>, i: nat): Ring?<T> {
    if i + 1 < |rings| then rings[i + 1] else null
  }

  /** `qtail` is where enqueuers start and never moves; they follow the links to the last ring. */
  class Queue<T> {
    const size: nat
    const qtail: Ring<T>
    var qhead: Ring<T>
    // The rings in the order of their links, what they hold, where the head is, and everything the queue owns.
    ghost var rings: seq<Ring<T>>
    ghost var views: seq<View<T>>
    ghost var at: nat
    ghost var repr: set<object>

    /** The rings are linked one behind the other and share nothing. */
    ghost predicate Shape()
      reads this, repr
    {
      && this !in repr && size > 0 && at < |rings| == |views| && rings[0] == qtail && rings[at] == qhead
      && (forall i :: 0 <= i < |rings| ==> rings[i] in repr && rings[i].cells in repr && rings[i].cells.Length == size)
      && (forall i, j :: 0 <= i < j < |rings| ==> rings[i] != rings[j] && rings[i].cells != rings[j].cells)
      && (forall i {:trigger NextOf(rings, i)} :: 0 <= i < |rings| ==> rings[i].next == NextOf(rings, i))
      && (forall i {:trigger rings[i].AsView()} {:trigger views[i]} :: 0 <= i < |rings| ==> rings[i].AsView() == views[i])
    }

    ghost predicate Valid()
      reads this, repr
    {
      Shape() && QueueOk(views, at)
    }

    /** The values in the queue, oldest first. */
    ghost function Values(): seq<T>
      requires Valid()
      reads this, repr
    {
      Contents(views, at)
    }

    constructor (size: nat)
      requires size > 0
      ensures Valid() && fresh(repr) && Values() == []
    {
      var rq := new Ring(size, None);
      this.size, this.qtail, this.qhead, this.rings, this.at := size, rq, rq, [rq], 0;
      this.views, this.repr := [rq.AsView()], {rq, rq.cells};
      new;
      FreshRing(views[0], size);
      EmptyTest(views, 0);
    }

    /** Follow the links from the first ring to the last. */
    method LastRing() returns (rq: Ring<T>)
      requires Valid()
      ensures rq == rings[|rings| - 1]
    {
      rq := qtail;
      ghost var i := 0;
      while rq.next != null
        invariant 0 <= i < |rings| && rq == rings[i]
        decreases |rings| - i
      {
        assert rq.next == NextOf(rings, i);
        rq := rq.next;
        i := i + 1;
      }
      assert rq.next == NextOf(rings, i);
    }

    /** Put into the last ring. */
    method PutLast(rq: Ring<T>, x: T) returns (stored: bool)
      requires Valid() && rq == rings[|rings| - 1]
      modifies this`views, rq`tail, rq`closed, rq.cells
      ensures Shape() && stored == (old(rq.tail) < old(rq.head) + size)
      ensures var v := old(views)[|rings| - 1];
        views == old(views)[|rings| - 1 := if stored then Stored(v, x) else Closed(v)]
    {
      assert rq.next == NextOf(rings, |rings| - 1);
      stored := rq.Put(x);
      views := views[|rings| - 1 := rq.AsView()];
    }

    /** Link a ring behind the last one. */
    method Append(rq: Ring<T>, solo: Ring<T>)
      requires Shape() && rq == rings[|rings| - 1]
      requires solo !in repr && solo.cells !in repr && solo.next == null && solo.cells.Length == size
      modifies this`rings, this`views, this`repr, rq`next
      ensures Shape() && repr == old(repr) + {solo, solo.cells} && views == old(views) + [old(solo.AsView())]
    {
      rq.next := solo;
      rings := rings + [solo];
      views := views + [solo.AsView()];
      repr := repr + {solo, solo.cells};
      ghost var n := |rings| - 1;
      forall i | 0 <= i < n ensures rings[i].AsView() == views[i] {
        assert old(rings[i].AsView()) == old(views)[i];
      }
      forall i | 0 <= i <= n ensures rings[i].next == NextOf(rings, i) {
        if i < n - 1 { assert old(rings[i].next == NextOf(rings, i)); }
      }
    }

    /** Link a new ring that holds x behind the last one. */
    method LinkSolo(rq: Ring<T>, x: T)
      requires Shape() && rq == rings[|rings| - 1]
      modifies this`rings, this`views, this`repr, rq`next
      ensures Shape() && fresh(repr - old(repr)) && views == old(views) + [Solo(size, x)]
    {
      var solo := new Ring(size, Some(x));
      Append(rq, solo);
    }

    method PutOrLink(rq: Ring<T>, x: T)
      requires Valid() && rq == rings[|rings| - 1]
      modifies this`rings, this`views, this`repr, repr
      ensures Shape() && fresh(repr - old(repr)) && views == Enqueued(old(views), x, size)
    {
      assert rq.AsView() == views[|rings| - 1];
      var stored := PutLast(rq, x);
      if !stored { LinkSolo(rq, x); }
    }

    method Enqueue(x: T)
      requires Valid()
      modifies this`rings, this`views, this`repr, repr
      ensures Valid() && fresh(repr - old(repr)) && Values() == old(Values()) + [x]
    {
      var rq := LastRing();
      EnqueueResult(views, at, x, size);
      PutOrLink(rq, x);
    }

    /** Take from the head ring. */
    method TakeFirst() returns (r: Option<T>)
      requires Valid() && (qhead.head == Last(views[at]) ==> qhead.closed)
      modifies this`views, qhead`head, qhead.cells
      ensures Shape() && CellOk(old(views)[at], old(views)[at].head)
      ensures var v := old(views)[at];
        r == v.cells[Slot(v.head, |v.cells|)].val && views == old(views)[at := Taken(v)]
      ensures qhead.closed == views[at].closed && qhead.tail == views[at].tail
    {
      r := qhead.Take();
      views := views[at := qhead.AsView()];
    }

    /** The oldest value, or nothing exactly when the queue is empty. */
    method Dequeue() returns (r: Option<T>)
      requires Valid()
      modifies this`qhead, this`at, this`views, repr
      ensures Valid() && repr == old(repr)
      ensures old(Values()) == [] ==> r == None && Values() == []
      ensures old(Values()) != [] ==> r == Some(old(Values())[0]) && Values() == old(Values())[1..]
    {
      EmptyTest(views, at);
      assert qhead.next == NextOf(rings, at);
      if qhead.tail < qhead.head + 1 && qhead.next == null { return None; }
      while true
        invariant Valid() && rings == old(rings) && repr == old(repr) && Values() == old(Values()) && Values() != []
        decreases |rings| - at
      {
        r := Round();
        if r.Some? { return; }
      }
    }

    /** One ticket at the head ring: a value, or the move to the next ring. */
    method Round() returns (r: Option<T>)
      requires Valid() && Values() != []
      modifies this`qhead, this`at, this`views, repr
      ensures Valid() && rings == old(rings) && repr == old(repr)
      ensures r.Some? ==> r == Some(old(Values())[0]) && Values() == old(Values())[1..]
      ensures r.None? ==> Values() == old(Values()) && at > old(at)
    {
      ghost var before := views;
      RoundResult(views, at);
      var rq, h := RoundHead();
      r := TakeFirst();
      assert views == before[at := Taken(before[at])];
      if r.None? { MoveOn(rq, h); }
    }

    /** The head ring and the ticket to take from it: it is used up only if it is closed. */
    method RoundHead() returns (rq: Ring<T>, h: nat)
      requires Valid() && Values() != []
      ensures rq == qhead && h == qhead.head == views[at].head && (h == Last(views[at]) ==> rq.closed)
    {
      EmptyTest(views, at);
      rq, h := qhead, qhead.head;
    }

    /** Behind a ticket without a value: repair the tail, and if the ring is used up go on to the next one. */
    method MoveOn(rq: Ring<T>, h: nat)
      requires Shape() && rq == qhead && rq.closed && rq.tail == h + 1 && at + 1 < |rings|
      modifies this`qhead, this`at, rq`tail
      ensures Shape() && at == old(at) + 1
    {
      assert rq.next == NextOf(rings, at);
      if rq.tail <= h + 1 {
        rq.FixState();
        if rq.next == null { return; }
        if rq.tail <= h + 1 {
          qhead := rq.next;
          at := at + 1;
        }
      }
    }
  }

  /** The rings after an enqueue: the value is in the last one, or that was full and a new one holds it. */
  function Enqueued<T>(views: seq<View<T>>, x: T, size: nat): seq<View<T>>
    requires views != [] && |views[|views| - 1].cells| > 0 && size > 0
  {
    var v := views[|views| - 1];
    if v.tail < v.head + |v.cells| then views[|views| - 1 := Stored(v, x)] else Linked(views, x, size)
  }

  /** Either way an enqueue takes adds its value behind all others. */
  lemma EnqueueResult<T>(views: seq<View<T>>, at: nat, x: T, size: nat)
    requires QueueOk(views, at) && size > 0
    ensures QueueOk(Enqueued(views, x, size), at)
    ensures Contents(Enqueued(views, x, size), at) == Contents(views, at) + [x]
  {
    var v := views[|views| - 1];
    if v.tail < v.head + |v.cells| { EnqueueStores(views, at, x); } else { EnqueueLinks(views, at, x, size); }
  }

  /** What one dequeue ticket finds in a queue that is not empty. */
  lemma RoundResult<T>(views: seq<View<T>>, at: nat)
    requires QueueOk(views, at) && Contents(views, at) != []
    ensures var v, after := views[at], views[at := Taken(views[at])];
      && CellOk(v, v.head)
      && match v.cells[Slot(v.head, |v.cells|)].val
         case Some(x) =>
           QueueOk(after, at) && x == Contents(views, at)[0] && Contents(after, at) == Contents(views, at)[1..]
         case None =>
           && v.closed && v.tail == v.head + 1 && at + 1 < |views|
           && QueueOk(after, at + 1) && Contents(after, at + 1) == Contents(views, at)
  {
    EmptyTest(views, at);
    assert CellOk(views[at], views[at].head);
    if views[at].head < Last(views[at]) { DequeueTakes(views, at); } else { DequeueMovesOn(views, at); }
  }

  lemma FreshRing<T>(v: View<T>, size: nat)
    requires size > 0 && v == View(0, 0, false, seq(size, i requires 0 <= i < size => C.Cell(None, i, false)))
    ensures RingOk(v)
  {
    forall k: nat | 0 <= k < size ensures CellOk(v, k) {
    }
  }
}
