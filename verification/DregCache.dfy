/** The registration cache: the life cycle of its entries over registrations, releases and evictions. */
module DregCache {
  import opened Wrappers
  import opened VmaList
  import opened VmaDb

  const PAGE_SIZE: nat := 4096

  /** Entries are named by their position in the pool.  `free` and `unused` are lists, head first; `refs` and `regions`
      describe the entries that are registered.  `clock` and `released` record when an entry last became unused. */
  datatype Cache = Cache(free: seq<nat>, unused: seq<nat>, refs: map<nat, nat>, regions: map<nat, Entry>, vmas: seq<Vma>,
                         clock: nat, released: map<nat, nat>)

  function FirstPage(buf: nat): nat {
    buf / PAGE_SIZE
  }

  function LastPage(buf: nat, len: nat): nat
    requires len >= 1
  {
    (buf + len - 1) / PAGE_SIZE
  }

  // ----- Operations -----

  function WithoutId(list: seq<nat>, id: nat): seq<nat> {
    if list == [] then [] else if list[0] == id then list[1..] else [list[0]] + WithoutId(list[1..], id)
  }

  /** Take a reference; an unused entry leaves the unused list. */
  function Incr(c: Cache, id: nat): Cache
    requires id in c.refs
  {
    c.(unused := if c.refs[id] == 0 then WithoutId(c.unused, id) else c.unused, refs := c.refs[id := c.refs[id] + 1])
  }

  /** Give a reference back; with the last one the entry goes to the head of the unused list. */
  function Decr(c: Cache, id: nat): Cache
    requires id in c.refs && c.refs[id] > 0
  {
    var d := c.(refs := c.refs[id := c.refs[id] - 1], clock := c.clock + 1);
    if c.refs[id] == 1 then d.(unused := [id] + c.unused, released := c.released[id := c.clock]) else d
  }

  /** Deregister the entry at the tail of the unused list. */
  function Evict(c: Cache): Cache
    requires c.unused != [] && c.unused[|c.unused| - 1] in c.regions
  {
    var id := c.unused[|c.unused| - 1];
    Cache([id] + c.free, c.unused[..|c.unused| - 1], c.refs - {id}, c.regions - {id}, Removed(c.vmas, c.regions[id]),
          c.clock, c.released)
  }

  /** An entry from the free list for the pages low..high; `granted` says whether the memory could be registered. */
  function NewEntry(c: Cache, low: nat, high: nat, granted: bool): (Cache, Option<nat>)
    requires low <= high
  {
    if c.free == [] then (c, None)
    else
      var id := c.free[0];
      var e := Entry(id, low, 1 + (high - low));
      var vmas := Inserted(c.vmas, e);
      if granted then
        (c.(free := c.free[1..], refs := c.refs[id := 0], regions := c.regions[id := e], vmas := vmas), Some(id))
      else
        (c.(free := [id] + c.free[1..], vmas := Removed(vmas, e)), None)
  }

  /** Is there something to evict, and is it a registered entry? */
  predicate Evictable(c: Cache) {
    c.unused != [] && c.unused[|c.unused| - 1] in c.regions
  }

  /** Try to make an entry; evict one unused entry after every failure; give up when there is none left.  `grants` tells
      the outcome of each attempt to register memory. */
  function Acquire(c: Cache, low: nat, high: nat, grants: nat -> bool, attempt: nat): (Cache, Option<nat>)
    requires low <= high
    decreases |c.unused|
  {
    var (d, r) := NewEntry(c, low, high, grants(attempt));
    if r.Some? then (d, r)
    else if !Evictable(d) then (d, None)
    else Acquire(Evict(d), low, high, grants, attempt + 1)
  }

  function Find(c: Cache, low: nat, high: nat): Option<nat> {
    var list := Cover(c.vmas, low);
    if list != [] && list[0].End() >= high then Some(list[0].id) else None
  }

  function Register(c: Cache, buf: nat, len: nat, grants: nat -> bool): (Cache, Option<nat>)
    requires len >= 1
  {
    var low, high := FirstPage(buf), LastPage(buf, len);
    match Find(c, low, high)
    case Some(id) => if id in c.refs then (Incr(c, id), Some(id)) else (c, None)
    case None =>
      var (d, r) := Acquire(c, low, high, grants, 0);
      if r.Some? && r.value in d.refs then (Incr(d, r.value), r) else (d, None)
  }

  // ----- The invariant -----

  ghost function Elements(list: seq<nat>): set<nat> {
    if list == [] then {} else {list[0]} + Elements(list[1..])
  }

  ghost predicate NoDuplicates(list: seq<nat>) {
    list != [] ==> list[0] !in Elements(list[1..]) && NoDuplicates(list[1..])
  }

  /** Later released entries come first. */
  ghost predicate NewestFirst(list: seq<nat>, released: map<nat, nat>) {
    forall i, j :: 0 <= i < j < |list| ==>
      list[i] in released && list[j] in released && released[list[j]] < released[list[i]]
  }

  ghost predicate Released(list: seq<nat>, released: map<nat, nat>, clock: nat) {
    forall j :: 0 <= j < |list| ==> list[j] in released && released[list[j]] < clock
  }

  /** Every entry of the pool is on the free list, on the unused list without references, or in use; the database
      represents exactly the regions of the latter two. */
  ghost predicate Inv(c: Cache, pool: set<nat>) {
    && NoDuplicates(c.free) && NoDuplicates(c.unused)
    && c.regions.Keys == c.refs.Keys
    && Elements(c.free) !! c.refs.Keys && Elements(c.free) + c.refs.Keys == pool
    && Elements(c.unused) == (set id | id in c.refs && c.refs[id] == 0)
    && RegionsOk(c.regions)
    && Represents(c.vmas, c.regions.Values)
    && NewestFirst(c.unused, c.released) && Released(c.unused, c.released, c.clock)
  }

  ghost predicate RegionsOk(regions: map<nat, Entry>) {
    forall id :: id in regions ==> regions[id].id == id && regions[id].Fits()
  }

  ghost predicate InUse(c: Cache, id: nat) {
    id in c.refs && c.refs[id] > 0
  }

  lemma RegionsFit(regions: map<nat, Entry>)
    requires RegionsOk(regions)
    ensures Fitting(regions.Values)
  {
  }

  lemma ValuesAdd(regions: map<nat, Entry>, id: nat, e: Entry)
    requires RegionsOk(regions) && id !in regions && e.id == id && e.Fits()
    ensures RegionsOk(regions[id := e]) && regions[id := e].Values == regions.Values + {e} && e !in regions.Values
  {
    var more := regions[id := e];
    assert more[id] == e;
    forall x | x in regions.Values ensures x in more.Values {
      var k :| k in regions && regions[k] == x;
      assert more[k] == x;
    }
  }

  lemma ValuesRemove(regions: map<nat, Entry>, id: nat)
    requires RegionsOk(regions) && id in regions
    ensures RegionsOk(regions - {id}) && (regions - {id}).Values == regions.Values - {regions[id]}
  {
    var less := regions - {id};
    forall x | x in regions.Values && x != regions[id] ensures x in less.Values {
      var k :| k in regions && regions[k] == x;
      assert less[k] == x;
    }
  }

  lemma {:induction false} WithoutIdElements(list: seq<nat>, id: nat)
    requires NoDuplicates(list)
    ensures NoDuplicates(WithoutId(list, id)) && Elements(WithoutId(list, id)) == Elements(list) - {id}
  {
    if list != [] && list[0] != id {
      WithoutIdElements(list[1..], id);
      assert WithoutId(list, id)[1..] == WithoutId(list[1..], id);
    }
  }

  lemma {:induction false} ElementAt(list: seq<nat>, x: nat)
    ensures x in Elements(list) <==> exists j :: 0 <= j < |list| && list[j] == x
  {
    if list != [] {
      ElementAt(list[1..], x);
      if x in Elements(list[1..]) {
        var j :| 0 <= j < |list[1..]| && list[1..][j] == x;
        assert list[j + 1] == x;
      }
      if j :| 0 <= j < |list| && list[j] == x {
        if j > 0 { assert list[1..][j - 1] == x; }
      }
    }
  }

  lemma {:induction false} WithoutIdFrom(list: seq<nat>, id: nat, j: nat)
    requires j < |WithoutId(list, id)|
    ensures WithoutId(list, id)[j] in list
  {
    if list[0] == id { assert list[1..][j] == list[j + 1]; }
    else if j > 0 {
      WithoutIdFrom(list[1..], id, j - 1);
      assert forall x :: x in list[1..] ==> x in list;
    }
  }

  lemma PrependNewest(x: nat, list: seq<nat>, released: map<nat, nat>)
    requires NewestFirst(list, released) && x in released
    requires forall j :: 0 <= j < |list| ==> list[j] in released && released[list[j]] < released[x]
    ensures NewestFirst([x] + list, released)
  {
  }

  /** Taking an element out keeps the order of the others. */
  lemma {:induction false} WithoutIdOrder(list: seq<nat>, id: nat, released: map<nat, nat>, clock: nat)
    requires NewestFirst(list, released) && Released(list, released, clock)
    ensures NewestFirst(WithoutId(list, id), released) && Released(WithoutId(list, id), released, clock)
  {
    if list != [] {
      var rest := list[1..];
      assert forall j :: 0 <= j < |rest| ==> rest[j] == list[j + 1];
      if list[0] != id {
        WithoutIdOrder(rest, id, released, clock);
        var w := WithoutId(rest, id);
        forall j | 0 <= j < |w| ensures w[j] in released && released[w[j]] < released[list[0]] {
          WithoutIdFrom(rest, id, j);
        }
        PrependNewest(list[0], w, released);
      }
    }
  }

  lemma {:induction false} InitElements(list: seq<nat>)
    requires list != [] && NoDuplicates(list)
    ensures var n := |list| - 1; NoDuplicates(list[..n]) && Elements(list[..n]) == Elements(list) - {list[n]}
    ensures list[|list| - 1] in Elements(list)
  {
    var n := |list| - 1;
    if n > 0 {
      InitElements(list[1..]);
      assert list[..n][1..] == list[1..][..n - 1];
    }
  }

  // ----- Each operation keeps it -----

  /** `Inv`, but for one registered entry without references that is not on the unused list yet. */
  ghost predicate InvBut(c: Cache, pool: set<nat>, id: nat) {
    && NoDuplicates(c.free) && NoDuplicates(c.unused)
    && c.regions.Keys == c.refs.Keys
    && Elements(c.free) !! c.refs.Keys && Elements(c.free) + c.refs.Keys == pool
    && id in c.refs && c.refs[id] == 0 && id !in Elements(c.unused)
    && Elements(c.unused) + {id} == (set x | x in c.refs && c.refs[x] == 0)
    && RegionsOk(c.regions)
    && Represents(c.vmas, c.regions.Values)
    && NewestFirst(c.unused, c.released) && Released(c.unused, c.released, c.clock)
  }

  lemma IncrTakesOff(c: Cache, pool: set<nat>, id: nat)
    requires id in c.refs && NoDuplicates(c.unused) && (c.refs[id] > 0 ==> id !in Elements(c.unused))
    ensures Elements(Incr(c, id).unused) == Elements(c.unused) - {id}
  {
    WithoutIdElements(c.unused, id);
  }

  /** Taking a reference takes an entry off the unused list, if it is on it, and changes nothing else. */
  lemma IncrKeeps(c: Cache, pool: set<nat>, id: nat)
    requires id in c.refs && (Inv(c, pool) || InvBut(c, pool, id))
    ensures Inv(Incr(c, id), pool) && InUse(Incr(c, id), id)
    ensures Incr(c, id).refs == c.refs[id := c.refs[id] + 1]
    ensures Incr(c, id).regions == c.regions && Incr(c, id).free == c.free
    ensures Elements(Incr(c, id).unused) == Elements(c.unused) - {id}
  {
    assert c.refs[id] > 0 ==> id !in Elements(c.unused);
    IncrTakesOff(c, pool, id);
    if c.refs[id] == 0 {
      WithoutIdElements(c.unused, id);
      WithoutIdOrder(c.unused, id, c.released, c.clock);
    }
  }

  lemma DecrOrder(unused: seq<nat>, id: nat, released: map<nat, nat>, clock: nat)
    requires id !in Elements(unused) && NewestFirst(unused, released) && Released(unused, released, clock)
    ensures NewestFirst([id] + unused, released[id := clock]) && Released([id] + unused, released[id := clock], clock + 1)
  {
    ElementAt(unused, id);
  }

  /** The lists after the last reference to an entry was given back. */
  lemma DecrLists(c: Cache, pool: set<nat>, id: nat)
    requires Inv(c, pool) && InUse(c, id) && c.refs[id] == 1
    ensures var d := Decr(c, id);
      && NoDuplicates(d.unused) && d.regions.Keys == d.refs.Keys
      && Elements(d.unused) == (set x | x in d.refs && d.refs[x] == 0)
      && NewestFirst(d.unused, d.released) && Released(d.unused, d.released, d.clock)
  {
    assert id !in Elements(c.unused);
    DecrOrder(c.unused, id, c.released, c.clock);
    assert ([id] + c.unused)[1..] == c.unused;
  }

  lemma DecrKeeps(c: Cache, pool: set<nat>, id: nat)
    requires Inv(c, pool) && InUse(c, id)
    ensures var d := Decr(c, id);
      && Inv(d, pool) && d.refs == c.refs[id := c.refs[id] - 1] && d.regions == c.regions && d.free == c.free
      && if InUse(d, id) then d.unused == c.unused else d.unused == [id] + c.unused
  {
    if c.refs[id] == 1 { DecrLists(c, pool, id); }
  }

  /** The tail of the unused list was released before everything else on it. */
  lemma TailIsOldest(list: seq<nat>, released: map<nat, nat>, x: nat)
    requires list != [] && NewestFirst(list, released) && x in Elements(list) && x != list[|list| - 1]
    ensures x in released && list[|list| - 1] in released && released[list[|list| - 1]] < released[x]
  {
    ElementAt(list, x);
  }

  lemma EvictInv(c: Cache, pool: set<nat>)
    requires Inv(c, pool) && c.unused != []
    ensures Evictable(c) && Inv(Evict(c), pool)
  {
    var id := c.unused[|c.unused| - 1];
    InitElements(c.unused);
    assert id in c.regions.Keys;
    ValuesRemove(c.regions, id);
    RemoveRepresents(c.vmas, c.regions.Values, c.regions[id]);
    assert ([id] + c.free)[1..] == c.free;
  }

  /** Eviction takes the entry that has been unused for longest, and never one that is in use. */
  lemma EvictKeeps(c: Cache, pool: set<nat>)
    requires Inv(c, pool) && c.unused != []
    ensures Evictable(c) && Inv(Evict(c), pool)
    ensures var id := c.unused[|c.unused| - 1];
      && !InUse(c, id) && id !in Evict(c).refs
      && (forall x :: x in Elements(c.unused) && x != id ==>
            x in c.released && id in c.released && c.released[id] < c.released[x])
      && (forall x :: x in c.refs && x != id ==> x in Evict(c).refs && Evict(c).refs[x] == c.refs[x])
      && (forall x :: x in c.regions && x != id ==> x in Evict(c).regions && Evict(c).regions[x] == c.regions[x])
  {
    var id := c.unused[|c.unused| - 1];
    EvictInv(c, pool);
    InitElements(c.unused);
    forall x | x in Elements(c.unused) && x != id
      ensures x in c.released && id in c.released && c.released[id] < c.released[x]
    {
      TailIsOldest(c.unused, c.released, x);
    }
  }

  /** The free entry at the head is registered nowhere, and fits. */
  lemma EntryFits(c: Cache, pool: set<nat>, e: Entry)
    requires Inv(c, pool) && c.free != [] && e.id == c.free[0] && e.Fits()
    ensures e !in c.regions.Values && Fitting(c.regions.Values + {e}) && c.regions[e.id := e].Values == c.regions.Values + {e}
    ensures c.regions.Values + {e} - {e} == c.regions.Values
  {
    assert c.free[0] in Elements(c.free);
    ValuesAdd(c.regions, e.id, e);
    RegionsFit(c.regions[e.id := e]);
  }

  /** Inserting a region that is not there and removing it again. */
  lemma NoTrace(vmas: seq<Vma>, registered: set<Entry>, e: Entry)
    requires Represents(vmas, registered) && e !in registered && Fitting(registered + {e})
    ensures Removed(Inserted(vmas, e), e) == vmas
  {
    RemoveUndoesInsert(vmas, registered, e);
  }

  /** An attempt that fails leaves no trace: the list of areas is what it was. */
  lemma FailedAttempt(c: Cache, pool: set<nat>, low: nat, high: nat, granted: bool)
    requires Inv(c, pool) && 1 <= low <= high && NewEntry(c, low, high, granted).1.None?
    ensures NewEntry(c, low, high, granted).0 == c
  {
    if c.free != [] {
      var e := Entry(c.free[0], low, 1 + (high - low));
      EntryFits(c, pool, e);
      NoTrace(c.vmas, c.regions.Values, e);
      assert [c.free[0]] + c.free[1..] == c.free;
    }
  }

  /** The free entry at the head is registered. */
  function WithEntry(c: Cache, e: Entry): Cache
    requires c.free != []
  {
    c.(free := c.free[1..], refs := c.refs[e.id := 0], regions := c.regions[e.id := e], vmas := Inserted(c.vmas, e))
  }

  lemma EntryAddedLists(c: Cache, pool: set<nat>, e: Entry)
    requires Inv(c, pool) && c.free != [] && e.id == c.free[0]
    ensures e.id in Elements(c.free) && e.id !in c.refs && e.id !in c.regions
    ensures var d := WithEntry(c, e);
      && NoDuplicates(d.free) && d.regions.Keys == d.refs.Keys
      && Elements(d.free) !! d.refs.Keys && Elements(d.free) + d.refs.Keys == pool
      && e.id !in Elements(d.unused) && Elements(d.unused) + {e.id} == (set x | x in d.refs && d.refs[x] == 0)
  {
    assert e.id in Elements(c.free);
    assert forall x :: x in c.refs.Keys <==> x in c.regions.Keys;
  }

  lemma EntryAdded(c: Cache, pool: set<nat>, e: Entry)
    requires Inv(c, pool) && c.free != [] && e.id == c.free[0] && e.Fits()
    ensures InvBut(WithEntry(c, e), pool, e.id)
  {
    EntryAddedLists(c, pool, e);
    EntryFits(c, pool, e);
    RegionsFit(c.regions[e.id := e]);
    InsertRepresents(c.vmas, c.regions.Values, e);
  }

  lemma GrantedAttempt(c: Cache, pool: set<nat>, low: nat, high: nat, granted: bool)
    requires Inv(c, pool) && 1 <= low <= high && NewEntry(c, low, high, granted).1.Some?
    ensures var (d, r) := NewEntry(c, low, high, granted);
      && InvBut(d, pool, r.value) && r.value !in c.refs
      && r.value in d.regions && d.regions[r.value].Covers(low) && d.regions[r.value].Covers(high)
      && (forall x :: x in c.refs ==> x in d.refs && d.refs[x] == c.refs[x])
      && (forall x :: x in c.regions ==> x in d.regions && d.regions[x] == c.regions[x])
  {
    var e := Entry(c.free[0], low, 1 + (high - low));
    EntryAddedLists(c, pool, e);
    EntryAdded(c, pool, e);
    assert NewEntry(c, low, high, granted).0 == WithEntry(c, e);
  }

  /** Entries in use keep their references and their region. */
  ghost predicate KeepsInUse(c: Cache, d: Cache) {
    forall x :: InUse(c, x) ==>
      x in d.refs && d.refs[x] == c.refs[x] && x in c.regions && x in d.regions && d.regions[x] == c.regions[x]
  }

  lemma KeepsTrans(c: Cache, d: Cache, e: Cache)
    requires KeepsInUse(c, d) && KeepsInUse(d, e)
    ensures KeepsInUse(c, e)
  {
    forall x | InUse(c, x)
      ensures x in e.refs && e.refs[x] == c.refs[x] && x in c.regions && x in e.regions && e.regions[x] == c.regions[x]
    {
      assert InUse(d, x);
    }
  }

  lemma EvictKeepsInUse(c: Cache, pool: set<nat>)
    requires Inv(c, pool) && c.unused != []
    ensures Evictable(c) && KeepsInUse(c, Evict(c))
  {
    EvictKeeps(c, pool);
    assert forall x :: x in c.refs.Keys <==> x in c.regions.Keys;
  }

  /** What an acquisition achieves: an entry for the pages, or nothing left to evict; entries in use are untouched. */
  ghost predicate Acquired(c: Cache, pool: set<nat>, low: nat, high: nat, d: Cache, r: Option<nat>) {
    && KeepsInUse(c, d)
    && match r
       case None => Inv(d, pool) && d.unused == []
       case Some(id) =>
         InvBut(d, pool, id) && !InUse(c, id) && id in d.regions && d.regions[id].Covers(low) && d.regions[id].Covers(high)
  }

  lemma AcquireGranted(c: Cache, pool: set<nat>, low: nat, high: nat, granted: bool)
    requires Inv(c, pool) && 1 <= low <= high && NewEntry(c, low, high, granted).1.Some?
    ensures var (d, r) := NewEntry(c, low, high, granted); Acquired(c, pool, low, high, d, r)
  {
    GrantedAttempt(c, pool, low, high, granted);
    assert forall x :: x in c.refs.Keys <==> x in c.regions.Keys;
  }

  lemma NothingToEvict(c: Cache, pool: set<nat>, low: nat, high: nat)
    requires Inv(c, pool) && c.unused == []
    ensures Acquired(c, pool, low, high, c, None)
  {
    assert forall x :: x in c.refs.Keys <==> x in c.regions.Keys;
  }

  lemma EvictedThenAcquired(c: Cache, e: Cache, pool: set<nat>, low: nat, high: nat, d: Cache, r: Option<nat>)
    requires KeepsInUse(c, e) && Acquired(e, pool, low, high, d, r)
    ensures Acquired(c, pool, low, high, d, r)
  {
    KeepsTrans(c, e, d);
  }

  lemma {:induction false} AcquireKeeps(c: Cache, pool: set<nat>, low: nat, high: nat, grants: nat -> bool, attempt: nat)
    requires Inv(c, pool) && 1 <= low <= high
    ensures var (d, r) := Acquire(c, low, high, grants, attempt); Acquired(c, pool, low, high, d, r)
    decreases |c.unused|
  {
    if NewEntry(c, low, high, grants(attempt)).1.Some? {
      AcquireGranted(c, pool, low, high, grants(attempt));
      return;
    }
    FailedAttempt(c, pool, low, high, grants(attempt));
    if c.unused == [] {
      NothingToEvict(c, pool, low, high);
    } else {
      EvictKeeps(c, pool);
      EvictKeepsInUse(c, pool);
      AcquireKeeps(Evict(c), pool, low, high, grants, attempt + 1);
      var (d, r) := Acquire(Evict(c), low, high, grants, attempt + 1);
      EvictedThenAcquired(c, Evict(c), pool, low, high, d, r);
    }
  }

  lemma FindFinds(c: Cache, pool: set<nat>, low: nat, high: nat)
    requires Inv(c, pool) && low <= high
    ensures Find(c, low, high).Some? ==>
      var id := Find(c, low, high).value; id in c.refs && id in c.regions && c.regions[id].Covers(low) && c.regions[id].Covers(high)
    ensures Find(c, low, high).None? ==>
      !exists id :: id in c.regions && c.regions[id].Covers(low) && c.regions[id].Covers(high)
  {
    LookupComplete(c.vmas, c.regions.Values, low, high);
    if Find(c, low, high).Some? {
      var e := Cover(c.vmas, low)[0];
      var k :| k in c.regions && c.regions[k] == e;
      assert k in c.regions.Keys;
    } else {
      assert forall id :: id in c.regions ==> c.regions[id] in c.regions.Values;
    }
  }

  lemma PagesCoverBytes(buf: nat, len: nat, e: Entry, b: nat)
    requires len >= 1 && e.Covers(FirstPage(buf)) && e.Covers(LastPage(buf, len)) && buf <= b < buf + len
    ensures e.Covers(b / PAGE_SIZE)
  {
  }

  /** Registering returns an entry in use whose region covers every byte asked for, or fails with nothing left to evict;
      entries in use stay in use with their region, the returned one with one more reference. */
  lemma RegisterKeeps(c: Cache, pool: set<nat>, buf: nat, len: nat, grants: nat -> bool)
    requires Inv(c, pool) && len >= 1 && buf >= PAGE_SIZE
    ensures var (d, r) := Register(c, buf, len, grants);
      && Inv(d, pool)
      && (r.Some? ==> InUse(d, r.value) && r.value in d.regions)
      && (r.Some? ==> forall b :: buf <= b < buf + len ==> d.regions[r.value].Covers(b / PAGE_SIZE))
      && (r.Some? ==> d.refs[r.value] == (if r.value in c.refs && InUse(c, r.value) then c.refs[r.value] else 0) + 1)
      && (r.None? ==> d.unused == [] && KeepsInUse(c, d))
      && (forall x :: InUse(c, x) && (r.None? || x != r.value) ==> x in d.refs && d.refs[x] == c.refs[x])
      && (forall x :: InUse(c, x) ==> x in c.regions && x in d.regions && d.regions[x] == c.regions[x])
  {
    var low, high := FirstPage(buf), LastPage(buf, len);
    FindFinds(c, pool, low, high);
    assert forall x :: x in c.refs.Keys <==> x in c.regions.Keys;
    match Find(c, low, high)
    case Some(id) =>
      IncrKeeps(c, pool, id);
      forall b | buf <= b < buf + len ensures c.regions[id].Covers(b / PAGE_SIZE) { PagesCoverBytes(buf, len, c.regions[id], b); }
    case None =>
      AcquireKeeps(c, pool, low, high, grants, 0);
      var (d, r) := Acquire(c, low, high, grants, 0);
      if r.Some? {
        IncrKeeps(d, pool, r.value);
        forall b | buf <= b < buf + len ensures d.regions[r.value].Covers(b / PAGE_SIZE) {
          PagesCoverBytes(buf, len, d.regions[r.value], b);
        }
      }
  }

  // ----- Runs -----

  datatype Op = DoRegister(buf: nat, len: nat, grants: nat -> bool) | DoUnregister(id: nat) | DoEvict

  /** Regions lie at page one or above and are not empty; only entries in use are released. */
  ghost predicate Legal(c: Cache, op: Op) {
    match op
    case DoRegister(buf, len, _) => len >= 1 && buf >= PAGE_SIZE
    case DoUnregister(id) => InUse(c, id)
    case DoEvict => true
  }

  function Step(c: Cache, op: Op): Cache {
    match op
    case DoRegister(buf, len, grants) => if len >= 1 then Register(c, buf, len, grants).0 else c
    case DoUnregister(id) => if id in c.refs && c.refs[id] > 0 then Decr(c, id) else c
    case DoEvict => if Evictable(c) then Evict(c) else c
  }

  ghost predicate Run(c: Cache, ops: seq<Op>, d: Cache)
    decreases |ops|
  {
    if ops == [] then c == d else Legal(c, ops[0]) && Run(Step(c, ops[0]), ops[1..], d)
  }

  lemma StepKeeps(c: Cache, pool: set<nat>, op: Op)
    requires Inv(c, pool) && Legal(c, op)
    ensures Inv(Step(c, op), pool)
  {
    match op
    case DoRegister(buf, len, grants) => RegisterKeeps(c, pool, buf, len, grants);
    case DoUnregister(id) => DecrKeeps(c, pool, id);
    case DoEvict => if c.unused != [] { EvictKeeps(c, pool); }
  }

  /** Over all runs every entry of the pool is in exactly one of three states, and the database holds the regions of the
      registered ones. */
  lemma {:induction false} RunKeeps(c: Cache, pool: set<nat>, ops: seq<Op>, d: Cache)
    requires Inv(c, pool) && Run(c, ops, d)
    ensures Inv(d, pool)
    decreases |ops|
  {
    if ops != [] {
      StepKeeps(c, pool, ops[0]);
      RunKeeps(Step(c, ops[0]), pool, ops[1..], d);
    }
  }

  lemma EmptyCache(free: seq<nat>)
    requires NoDuplicates(free)
    ensures Inv(Cache(free, [], map[], map[], [], 0, map[]), Elements(free))
  {
  }

  /** An entry is free, or unused and without references, or in use, and only one of these. */
  lemma ThreeStates(free: seq<nat>, ops: seq<Op>, d: Cache, id: nat)
    requires NoDuplicates(free) && id in Elements(free) && Run(Cache(free, [], map[], map[], [], 0, map[]), ops, d)
    ensures var isFree, isUnused := id in Elements(d.free), id in Elements(d.unused);
      && !(isFree && isUnused) && !(isFree && InUse(d, id)) && !(isUnused && InUse(d, id))
      && (isFree || isUnused || InUse(d, id))
  {
    EmptyCache(free);
    RunKeeps(Cache(free, [], map[], map[], [], 0, map[]), Elements(free), ops, d);
  }
}
