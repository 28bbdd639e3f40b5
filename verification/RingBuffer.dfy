/** The circular buffer behind the packet deques and the completion queues: pushes at the top, pops at either end. */
module RingBuffer {
  import opened Wrappers

  function Next(i: nat, capacity: nat): (j: nat)
    requires i < capacity
    ensures j < capacity
  {
    if i + 1 == capacity then 0 else i + 1
  }

  /** With a capacity that is a power of two the program masks instead of comparing. */
  lemma NextMasks(i: bv32)
    requires i < 4096
    ensures (i + 1) & 4095 == if i == 4095 then 0 else i + 1
    ensures (i + 4096 - 1) & 4095 == if i == 0 then 4095 else i - 1
  {
  }

  /** The cells from bot up to, but not including, top. */
  function Span<T>(cells: seq<T>, bot: nat, top: nat): seq<T>
    requires bot < |cells| && top < |cells|
  {
    if bot <= top then cells[bot..top] else cells[bot..] + cells[..top]
  }

  class Ring<T(0)> {
    var top: nat
    var bot: nat
    const container: array<T>

    ghost predicate Valid()
      reads this
    {
      top < container.Length && bot < container.Length
    }

    /** What the buffer holds, oldest first. */
    ghost function Contents(): seq<T>
      requires Valid()
      reads this, container
    {
      Span(container[..], bot, top)
    }

    constructor (capacity: nat)
      requires capacity > 0
      ensures Valid() && fresh(container) && container.Length == capacity && Contents() == []
    {
      container := new T[capacity];
      top, bot := 0, 0;
    }

    /** Push at the top.  Overflow, which ends the program, happens exactly when one cell was left. */
    method PushTop(p: T) returns (overflow: bool)
      requires Valid()
      modifies this`top, container
      ensures Valid()
      ensures overflow == (|old(Contents())| == container.Length - 1)
      ensures !overflow ==> Contents() == old(Contents()) + [p]
    {
      ghost var cells := container[..];
      container[top] := p;
      assert container[..] == cells[top := p];
      PushSpan(cells, bot, top, p);
      top := if top + 1 == container.Length then 0 else top + 1;
      overflow := top == bot;
    }

    method PopTop() returns (p: Option<T>)
      requires Valid()
      modifies this`top
      ensures Valid()
      ensures old(Contents()) == [] ==> p == None && Contents() == []
      ensures old(Contents()) != [] ==>
        p == Some(old(Contents()[|Contents()| - 1])) && Contents() == old(Contents()[..|Contents()| - 1])
    {
      if top == bot { return None; }
      top := if top == 0 then container.Length - 1 else top - 1;
      p := Some(container[top]);
    }

    method PopBot() returns (p: Option<T>)
      requires Valid()
      modifies this`bot
      ensures Valid()
      ensures old(Contents()) == [] ==> p == None && Contents() == []
      ensures old(Contents()) != [] ==> p == Some(old(Contents()[0])) && Contents() == old(Contents()[1..])
    {
      if top == bot { return None; }
      p := Some(container[bot]);
      bot := if bot + 1 == container.Length then 0 else bot + 1;
    }
  }

  /** Storing at the top and moving it on adds one element, unless the top then meets the bottom. */
  lemma PushSpan<T>(cells: seq<T>, bot: nat, top: nat, p: T)
    requires bot < |cells| && top < |cells|
    ensures var top' := Next(top, |cells|);
      && (top' == bot <==> |Span(cells, bot, top)| == |cells| - 1)
      && (top' != bot ==> Span(cells[top := p], bot, top') == Span(cells, bot, top) + [p])
  {
  }
}
