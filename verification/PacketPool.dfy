/** The packet pool of a device: a deque for every worker, made on first use, with stealing; and the pool number that a
    packet remembers in eight bits. */
module PacketPool {
  import opened Wrappers
  import R = RingBuffer

  const PACKETS: nat := 1024
  const DEQUE_CELLS: nat := 4096
  const MAX_POOLS: nat := 272

  /** `local` is the pool of each worker that has one; a list is a deque, bottom first. */
  datatype Pools = Pools(local: map<nat, nat>, lists: seq<seq<nat>>)

  /** Conversion to a signed integer of eight bits. */
  function ToInt8(x: int): int {
    (x + 128) % 256 - 128
  }

  // ----- Operations -----

  function LocalId(s: Pools, w: nat): nat {
    if w in s.local then s.local[w] else |s.lists|
  }

  /** The worker's own pool, made on first use. */
  function WithLocal(s: Pools, w: nat): Pools {
    if w in s.local then s else Pools(s.local[w := |s.lists|], s.lists + [[]])
  }

  predicate Exists(s: Pools, pid: int) {
    0 <= pid < |s.lists|
  }

  function PutTo(s: Pools, pid: nat, p: nat): Pools
    requires Exists(s, pid)
  {
    s.(lists := s.lists[pid := s.lists[pid] + [p]])
  }

  function Put(s: Pools, w: nat, p: nat): Pools
    requires PoolsOk(s)
  {
    PutTo(WithLocal(s, w), LocalId(s, w), p)
  }

  /** From the top of the own pool, or else from the bottom of the pool `steal`. */
  function Get(s: Pools, w: nat, steal: nat): (Pools, Option<nat>)
    requires PoolsOk(s)
  {
    var t := WithLocal(s, w);
    var id := LocalId(s, w);
    var own := t.lists[id];
    if own != [] then (t.(lists := t.lists[id := own[..|own| - 1]]), Some(own[|own| - 1]))
    else if steal < |t.lists| && t.lists[steal] != [] then
      (t.(lists := t.lists[steal := t.lists[steal][1..]]), Some(t.lists[steal][0]))
    else (t, None)
  }

  /** Where a packet that remembers a pool goes: to that pool, or, if it remembers -1, to the worker's own.  A number
      that is no pool's leads nowhere. */
  function PutBack(s: Pools, w: nat, p: nat, id: int): Option<Pools>
    requires PoolsOk(s)
  {
    if id == -1 then Some(Put(s, w, p)) else if Exists(s, id) then Some(PutTo(s, id, p)) else None
  }

  /** Workers have pools of their own; there are as many pools as workers that have one. */
  ghost predicate PoolsOk(s: Pools) {
    && (forall w :: w in s.local ==> w < MAX_POOLS && s.local[w] < |s.lists|)
    && (forall v, w :: v in s.local && w in s.local && s.local[v] == s.local[w] ==> v == w)
    && |s.lists| == |s.local.Keys|
  }

  /** So the table of pools is large enough for every worker it has a row for. */
  lemma PoolsFit(s: Pools)
    requires PoolsOk(s)
    ensures |s.lists| <= MAX_POOLS
  {
    SubsetSize(s.local.Keys, MAX_POOLS);
  }

  lemma {:induction false} SubsetSize(a: set<nat>, n: nat)
    requires forall x :: x in a ==> x < n
    ensures |a| <= n
    decreases n
  {
    if n > 0 {
      SubsetSize(a - {n - 1}, n - 1);
      if n - 1 in a { assert a == (a - {n - 1}) + {n - 1}; } else { assert a == a - {n - 1}; }
    } else if x :| x in a {
      assert false;
    } else {
      assert a == {};
    }
  }

  // ----- How often a packet is on a list, or on any of several lists -----

  ghost function Times(list: seq<nat>, p: nat): nat {
    if list == [] then 0 else (if list[0] == p then 1 else 0) + Times(list[1..], p)
  }

  ghost function TimesIn(lists: seq<seq<nat>>, p: nat): nat {
    if lists == [] then 0 else Times(lists[0], p) + TimesIn(lists[1..], p)
  }

  /** 1 if the packets are the same, 0 if not. */
  function One(p: nat, x: nat): nat {
    if p == x then 1 else 0
  }

  lemma {:induction false} TimesSnoc(list: seq<nat>, p: nat, x: nat)
    ensures Times(list + [p], x) == Times(list, x) + One(p, x)
  {
    if list != [] {
      assert (list + [p])[1..] == list[1..] + [p];
      TimesSnoc(list[1..], p, x);
    }
  }

  function Remove(list: seq<nat>, i: nat): seq<nat>
    requires i < |list|
  {
    list[..i] + list[i + 1..]
  }

  lemma {:induction false} TimesRemove(list: seq<nat>, i: nat, x: nat)
    requires i < |list|
    ensures Times(Remove(list, i), x) == Times(list, x) - One(list[i], x)
  {
    if i == 0 {
      assert Remove(list, 0) == list[1..];
    } else {
      assert Remove(list, i) == [list[0]] + Remove(list[1..], i - 1);
      TimesRemove(list[1..], i - 1, x);
    }
  }

  lemma {:induction false} TimesUpdate(lists: seq<seq<nat>>, i: nat, q: seq<nat>, x: nat)
    requires i < |lists|
    ensures TimesIn(lists[i := q], x) == TimesIn(lists, x) - Times(lists[i], x) + Times(q, x)
  {
    if i == 0 {
      assert lists[0 := q][1..] == lists[1..];
    } else {
      assert lists[i := q][1..] == lists[1..][i - 1 := q];
      TimesUpdate(lists[1..], i - 1, q, x);
    }
  }

  lemma {:induction false} TimesNewList(lists: seq<seq<nat>>, x: nat)
    ensures TimesIn(lists + [[]], x) == TimesIn(lists, x)
  {
    if lists != [] {
      assert (lists + [[]])[1..] == lists[1..] + [[]];
      TimesNewList(lists[1..], x);
    }
  }

  lemma {:induction false} TimesHolds(lists: seq<seq<nat>>, i: nat, x: nat)
    requires i < |lists|
    ensures Times(lists[i], x) <= TimesIn(lists, x)
  {
    if i > 0 { TimesHolds(lists[1..], i - 1, x); }
  }

  lemma {:induction false} TimesNone(list: seq<nat>, x: nat)
    ensures Times(list, x) == 0 <==> x !in list
  {
    if list != [] { TimesNone(list[1..], x); }
  }

  lemma TimesAt(list: seq<nat>, i: nat)
    requires i < |list|
    ensures Times(list, list[i]) >= 1
  {
    TimesNone(list, list[i]);
  }

  // ----- What the operations do to those numbers -----

  lemma LocalKeeps(s: Pools, w: nat)
    requires PoolsOk(s) && w < MAX_POOLS
    ensures PoolsOk(WithLocal(s, w)) && LocalId(s, w) < |WithLocal(s, w).lists|
    ensures forall x: nat :: TimesIn(WithLocal(s, w).lists, x) == TimesIn(s.lists, x)
  {
    forall x: nat { TimesNewList(s.lists, x); }
    if w !in s.local { assert WithLocal(s, w).local.Keys == s.local.Keys + {w}; }
  }

  lemma PutToKeeps(s: Pools, pid: nat, p: nat)
    requires PoolsOk(s) && Exists(s, pid)
    ensures PoolsOk(PutTo(s, pid, p))
    ensures forall x: nat :: TimesIn(PutTo(s, pid, p).lists, x) == TimesIn(s.lists, x) + One(p, x)
  {
    forall x: nat ensures TimesIn(PutTo(s, pid, p).lists, x) == TimesIn(s.lists, x) + One(p, x) {
      TimesSnoc(s.lists[pid], p, x);
      TimesUpdate(s.lists, pid, s.lists[pid] + [p], x);
    }
  }

  lemma PutKeeps(s: Pools, w: nat, p: nat)
    requires PoolsOk(s) && w < MAX_POOLS
    ensures PoolsOk(Put(s, w, p))
    ensures forall x: nat :: TimesIn(Put(s, w, p).lists, x) == TimesIn(s.lists, x) + One(p, x)
  {
    LocalKeeps(s, w);
    PutToKeeps(WithLocal(s, w), LocalId(s, w), p);
  }

  lemma GetKeeps(s: Pools, w: nat, steal: nat)
    requires PoolsOk(s) && w < MAX_POOLS
    ensures var (t, r) := Get(s, w, steal);
      && PoolsOk(t)
      && forall x: nat :: TimesIn(t.lists, x) == TimesIn(s.lists, x) - if r.Some? then One(r.value, x) else 0
  {
    LocalKeeps(s, w);
    var u, id := WithLocal(s, w), LocalId(s, w);
    var (t, r) := Get(s, w, steal);
    forall x: nat ensures TimesIn(t.lists, x) == TimesIn(u.lists, x) - if r.Some? then One(r.value, x) else 0 {
      var own := u.lists[id];
      if own != [] {
        TimesRemove(own, |own| - 1, x);
        assert Remove(own, |own| - 1) == own[..|own| - 1];
        TimesUpdate(u.lists, id, own[..|own| - 1], x);
      } else if r.Some? {
        TimesUpdate(u.lists, steal, u.lists[steal][1..], x);
      }
    }
  }

  // ----- Which packet, from which list, to which list -----

  function ListOf(s: Pools, pid: int): seq<nat> {
    if 0 <= pid < |s.lists| then s.lists[pid] else []
  }

  /** The list of the worker's own pool, empty if it has none yet. */
  function OwnList(s: Pools, w: nat): seq<nat> {
    if w in s.local then ListOf(s, s.local[w]) else []
  }

  ghost predicate SameBut(s: Pools, t: Pools, pid: int) {
    forall i: int :: i != pid ==> ListOf(t, i) == ListOf(s, i)
  }

  /** Making the worker's pool changes no list. */
  lemma LocalLists(s: Pools, w: nat)
    requires PoolsOk(s)
    ensures var t, id := WithLocal(s, w), LocalId(s, w);
      && id < |t.lists| && w in t.local && t.local[w] == id && t.lists[id] == OwnList(s, w)
      && (w in s.local ==> s.local[w] == id) && forall i: int :: ListOf(t, i) == ListOf(s, i)
  {
  }

  lemma ListChanged(s: Pools, pid: nat, list: seq<nat>)
    requires pid < |s.lists|
    ensures var t := s.(lists := s.lists[pid := list]); ListOf(t, pid) == list && SameBut(s, t, pid)
  {
  }

  /** A get gives the newest packet of the own pool if it has one, else the oldest of the pool drawn if that has one, and
      nothing if and only if both are empty.  It leaves every other list alone. */
  lemma GetExact(s: Pools, w: nat, steal: nat)
    requires PoolsOk(s)
    ensures var ((t, r), own, drawn) := (Get(s, w, steal), OwnList(s, w), ListOf(s, steal));
      && (own != [] ==> r == Some(own[|own| - 1]) && OwnList(t, w) == own[..|own| - 1] && SameBut(s, t, s.local[w]))
      && (own == [] && drawn != [] ==> r == Some(drawn[0]) && ListOf(t, steal) == drawn[1..] && SameBut(s, t, steal))
      && (r == None <==> own == [] && drawn == [])
      && (r == None ==> SameBut(s, t, -1))
  {
    LocalLists(s, w);
    var u, id, own, drawn := WithLocal(s, w), LocalId(s, w), OwnList(s, w), ListOf(s, steal);
    assert drawn == ListOf(u, steal);
    if own != [] { ListChanged(u, id, own[..|own| - 1]); }
    else if drawn != [] { ListChanged(u, steal, drawn[1..]); }
  }

  /** A put adds the packet on top of the worker's own pool and leaves every other list alone. */
  lemma PutExact(s: Pools, w: nat, p: nat)
    requires PoolsOk(s)
    ensures var t := Put(s, w, p);
      w in t.local && OwnList(t, w) == OwnList(s, w) + [p] && SameBut(s, t, t.local[w])
      && forall v :: v in s.local ==> v in t.local && t.local[v] == s.local[v]
  {
    LocalLists(s, w);
    ListChanged(WithLocal(s, w), LocalId(s, w), OwnList(s, w) + [p]);
  }

  /** A packet put back by a number goes on top of that pool, with -1 on top of the worker's own, and with a number that is
      no pool's nowhere. */
  lemma PutBackExact(s: Pools, w: nat, p: nat, id: int)
    requires PoolsOk(s)
    ensures var r := PutBack(s, w, p, id);
      && (r.None? <==> id != -1 && !(0 <= id < |s.lists|))
      && (r.Some? && id == -1 ==> OwnList(r.value, w) == OwnList(s, w) + [p])
      && (r.Some? && id != -1 ==> ListOf(r.value, id) == ListOf(s, id) + [p] && SameBut(s, r.value, id))
  {
    PutExact(s, w, p);
  }

  // ----- Eight bits for a pool number -----

  /** A packet that remembers the pool of worker v comes back to exactly one pool if that pool is one of the first 128,
      or so far up that its eight bits read -1 or the number of another pool; and if it is neither, nowhere. */
  lemma PutBackKeeps(s: Pools, v: nat, w: nat, p: nat)
    requires PoolsOk(s) && v in s.local && w < MAX_POOLS
    ensures var r := PutBack(s, w, p, ToInt8(s.local[v]));
      && (r.Some? <==> s.local[v] < 128 || s.local[v] >= 255)
      && (r.Some? ==> PoolsOk(r.value) && forall x: nat :: TimesIn(r.value.lists, x) == TimesIn(s.lists, x) + One(p, x))
  {
    PoolsFit(s);
    var id := ToInt8(s.local[v]);
    if id == -1 { PutKeeps(s, w, p); } else if Exists(s, id) { PutToKeeps(s, id, p); }
  }

  /** It comes back to the very pool it was marked with if and only if that is one of the first 128, or number 255 and
      the worker that puts it back is the one that marked it. */
  lemma PutBackHome(s: Pools, v: nat, w: nat, p: nat)
    requires PoolsOk(s) && v in s.local && w < MAX_POOLS
    ensures PutBack(s, w, p, ToInt8(s.local[v])) == Some(PutTo(s, s.local[v], p)) <==>
      s.local[v] < 128 || (s.local[v] == 255 && v == w)
  {
    PoolsFit(s);
    var id, pid := ToInt8(s.local[v]), s.local[v];
    if pid >= 128 && !(pid == 255 && v == w) {
      if id == -1 {
        assert LocalId(s, w) != pid;
        assert |Put(s, w, p).lists[pid]| == |s.lists[pid]|;
      } else if Exists(s, id) {
        assert id < pid && |PutTo(s, id, p).lists[pid]| == |s.lists[pid]|;
      }
      assert |PutTo(s, pid, p).lists[pid]| == |s.lists[pid]| + 1;
    }
  }

  // ----- A list without repetitions has no more elements than there are packets -----

  function Without(list: seq<nat>, p: nat): (r: seq<nat>)
    ensures |r| >= |list| - Times(list, p)
  {
    if list == [] then [] else (if list[0] == p then [] else [list[0]]) + Without(list[1..], p)
  }

  lemma {:induction false} TimesWithout(list: seq<nat>, p: nat, x: nat)
    ensures Times(Without(list, p), x) == if x == p then 0 else Times(list, x)
  {
    if list != [] {
      TimesWithout(list[1..], p, x);
      if list[0] != p { assert Without(list, p)[1..] == Without(list[1..], p); }
      else { assert Without(list, p) == Without(list[1..], p); }
    }
  }

  lemma {:induction false} ListFits(list: seq<nat>, n: nat)
    requires forall p: nat :: Times(list, p) <= if p < n then 1 else 0
    ensures |list| <= n
    decreases n
  {
    if n == 0 {
      if list != [] { assert Times(list, list[0]) >= 1; }
    } else {
      var rest := Without(list, n - 1);
      forall p: nat ensures Times(rest, p) <= if p < n - 1 then 1 else 0 { TimesWithout(list, n - 1, p); }
      ListFits(rest, n - 1);
    }
  }

  // ----- The pool in memory -----

  /** The pool as the program keeps it: the table of workers' pool numbers, and a circular buffer for every pool. */
  class DevicePool {
    var local: map<nat, nat>
    var lpools: seq<R.Ring<nat>>

    ghost function Parts(): set<object>
      reads this
    {
      (set i | 0 <= i < |lpools| :: lpools[i] as object) + (set i | 0 <= i < |lpools| :: lpools[i].container as object)
    }

    /** Every pool has a buffer of its own. */
    ghost predicate Separate()
      reads this
    {
      forall i, j :: 0 <= i < j < |lpools| ==> lpools[i] != lpools[j] && lpools[i].container != lpools[j].container
    }

    ghost predicate Rings()
      reads this, Parts()
    {
      Separate() && forall i :: 0 <= i < |lpools| ==> lpools[i].Valid() && lpools[i].container.Length == DEQUE_CELLS
    }

    ghost function AsPools(): Pools
      requires Rings()
      reads this, Parts()
    {
      Pools(local, seq(|lpools|, i requires 0 <= i < |lpools| && Rings() reads this, Parts() => lpools[i].Contents()))
    }

    ghost predicate Valid()
      reads this, Parts()
    {
      Rings() && PoolsOk(AsPools())
    }

    constructor ()
      ensures Valid() && fresh(Parts()) && AsPools() == Pools(map[], [])
    {
      local, lpools := map[], [];
      new;
      assert PoolsOk(Pools(map[], []));
    }

    /** One more pool, empty, for a worker that has none. */
    method AddPool(w: nat)
      requires Rings()
      modifies this
      ensures Rings() && fresh(Parts() - old(Parts())) && |lpools| == old(|lpools|) + 1
      ensures AsPools() == Pools(old(local)[w := old(|lpools|)], old(AsPools()).lists + [[]])
    {
      ghost var before := AsPools();
      var ring := new R.Ring<nat>(DEQUE_CELLS);
      local, lpools := local[w := |lpools|], lpools + [ring];
      assert forall i :: 0 <= i < |before.lists| ==> AsPools().lists[i] == before.lists[i];
      assert AsPools().lists == before.lists + [[]];
    }

    /** The number of the worker's own pool, which is made on first use. */
    method GetLocal(w: nat) returns (pid: nat)
      requires Valid() && w < MAX_POOLS
      modifies this
      ensures Valid() && fresh(Parts() - old(Parts()))
      ensures AsPools() == WithLocal(old(AsPools()), w) && pid == LocalId(old(AsPools()), w) && pid < |lpools|
    {
      if w in local { return local[w]; }
      LocalKeeps(AsPools(), w);
      pid := |lpools|;
      AddPool(w);
    }

    /** Push on top of a pool. */
    method PutInto(pid: nat, p: nat) returns (overflow: bool)
      requires Valid() && pid < |lpools|
      modifies Parts()
      ensures Rings() && unchanged(this) && Parts() == old(Parts())
      ensures overflow == (|old(AsPools()).lists[pid]| == DEQUE_CELLS - 1)
      ensures !overflow ==> Valid() && AsPools() == PutTo(old(AsPools()), pid, p)
    {
      ghost var before := AsPools();
      overflow := lpools[pid].PushTop(p);
      if !overflow { assert AsPools() == PutTo(before, pid, p); }
    }

    method PutOwn(w: nat, p: nat) returns (overflow: bool)
      requires Valid() && w < MAX_POOLS
      modifies this, Parts()
      ensures Rings() && fresh(Parts() - old(Parts()))
      ensures overflow == (|WithLocal(old(AsPools()), w).lists[LocalId(old(AsPools()), w)]| == DEQUE_CELLS - 1)
      ensures !overflow ==> Valid() && AsPools() == Put(old(AsPools()), w, p)
    {
      var pid := GetLocal(w);
      overflow := PutInto(pid, p);
    }

    method PopTopOf(pid: nat) returns (p: Option<nat>)
      requires Valid() && pid < |lpools|
      modifies Parts()
      ensures Valid() && unchanged(this) && Parts() == old(Parts())
      ensures var (s, list) := (old(AsPools()), old(AsPools()).lists[pid]);
        if list == [] then p == None && AsPools() == s
        else p == Some(list[|list| - 1]) && AsPools() == s.(lists := s.lists[pid := list[..|list| - 1]])
    {
      ghost var s := AsPools();
      p := lpools[pid].PopTop();
      forall i | 0 <= i < |lpools| && i != pid ensures lpools[i].Valid() && lpools[i].Contents() == s.lists[i] {}
      assert AsPools().lists == s.lists[pid := lpools[pid].Contents()];
    }

    method PopBotOf(pid: nat) returns (p: Option<nat>)
      requires Valid() && pid < |lpools|
      modifies Parts()
      ensures Valid() && unchanged(this) && Parts() == old(Parts())
      ensures var (s, list) := (old(AsPools()), old(AsPools()).lists[pid]);
        if list == [] then p == None && AsPools() == s
        else p == Some(list[0]) && AsPools() == s.(lists := s.lists[pid := list[1..]])
    {
      ghost var s := AsPools();
      p := lpools[pid].PopBot();
      forall i | 0 <= i < |lpools| && i != pid ensures lpools[i].Valid() && lpools[i].Contents() == s.lists[i] {}
      assert AsPools().lists == s.lists[pid := lpools[pid].Contents()];
    }

    /** Pop the top of the own pool; if there is nothing, the bottom of the pool drawn. */
    method GetAny(w: nat, steal: nat) returns (p: Option<nat>)
      requires Valid() && w < MAX_POOLS
      requires steal < |WithLocal(AsPools(), w).lists|
      modifies this, Parts()
      ensures Valid() && fresh(Parts() - old(Parts()))
      ensures (AsPools(), p) == Get(old(AsPools()), w, steal)
    {
      var pid := GetLocal(w);
      p := PopTopOf(pid);
      if p == None { p := PopBotOf(steal); }
    }
  }
}
