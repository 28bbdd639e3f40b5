/** The registration cache as the program keeps it, on top of the database of regions. */
module RegistrationCache {
  import opened Wrappers
  import opened VmaList
  import opened VmaDb
  import opened DregCache
  import VT = VmaTable

  class RegCache {
    const table: VT.Table
    var free: seq<nat>
    var unused: seq<nat>
    var refs: map<nat, nat>
    var regions: map<nat, Entry>
    ghost var clock: nat
    ghost var released: map<nat, nat>
    ghost const pool: set<nat>

    ghost function AsCache(): Cache
      reads this, table
    {
      Cache(free, unused, refs, regions, table.vmas, clock, released)
    }

    ghost predicate Database()
      reads this, table
    {
      table.Valid() && table.registered == regions.Values
    }

    ghost predicate Valid()
      reads this, table
    {
      Database() && Inv(AsCache(), pool)
    }

    constructor (free: seq<nat>)
      requires NoDuplicates(free)
      ensures Valid() && fresh(table) && pool == Elements(free)
      ensures AsCache() == Cache(free, [], map[], map[], [], 0, map[])
    {
      this.table := new VT.Table();
      this.free, this.unused, this.refs, this.regions := free, [], map[], map[];
      this.clock, this.released, this.pool := 0, map[], Elements(free);
      new;
      EmptyCache(free);
    }

    method Increment(id: nat)
      requires id in refs
      modifies this`unused, this`refs
      ensures AsCache() == Incr(old(AsCache()), id)
    {
      if refs[id] == 0 { unused := WithoutId(unused, id); }
      refs := refs[id := refs[id] + 1];
    }

    method Decrement(id: nat)
      requires id in refs && refs[id] > 0
      modifies this`unused, this`refs, this`clock, this`released
      ensures AsCache() == Decr(old(AsCache()), id)
    {
      refs := refs[id := refs[id] - 1];
      if refs[id] == 0 {
        unused := [id] + unused;
        released := released[id := clock];
      }
      clock := clock + 1;
    }

    method AddRef(id: nat)
      requires Database() && id in refs && (Inv(AsCache(), pool) || InvBut(AsCache(), pool, id))
      modifies this`unused, this`refs
      ensures Valid() && AsCache() == Incr(old(AsCache()), id)
    {
      IncrKeeps(AsCache(), pool, id);
      Increment(id);
    }

    method Unregister(id: nat)
      requires Valid() && InUse(AsCache(), id)
      modifies this`unused, this`refs, this`clock, this`released
      ensures Valid() && AsCache() == Decr(old(AsCache()), id)
    {
      DecrKeeps(AsCache(), pool, id);
      Decrement(id);
    }

    /** Returns 1 if an entry was evicted, 0 if there was none. */
    method EvictOne() returns (rc: int)
      requires Valid()
      modifies this`free, this`unused, this`refs, this`regions, table
      ensures Valid()
      ensures rc == (if old(unused) == [] then 0 else 1)
      ensures rc == 0 ==> AsCache() == old(AsCache())
      ensures rc == 1 ==> old(Evictable(AsCache())) && AsCache() == Evict(old(AsCache()))
    {
      if |unused| == 0 { return 0; }
      EvictKeeps(AsCache(), pool);
      var id := unused[|unused| - 1];
      ValuesRemove(regions, id);
      unused := unused[..|unused| - 1];
      var code := table.Remove(regions[id]);
      refs := refs - {id};
      regions := regions - {id};
      free := [id] + free;
      return 1;
    }

    /** Take the head of the free list into the database, and out again if its memory is not granted. */
    method TakeFree(low: nat, high: nat, granted: bool) returns (r: Option<nat>)
      requires table.Valid() && free != [] && 1 <= low <= high
      requires var e := Entry(free[0], low, 1 + (high - low)); e !in table.registered && Fitting(table.registered + {e})
      modifies this`free, this`refs, this`regions, table
      ensures table.Valid() && (AsCache(), r) == NewEntry(old(AsCache()), low, high, granted)
      ensures var e := old(Entry(free[0], low, 1 + (high - low)));
        table.registered == if granted then old(table.registered) + {e} else old(table.registered) + {e} - {e}
    {
      var id := free[0];
      var e := Entry(id, low, 1 + (high - low));
      free := free[1..];
      var code := table.Insert(e);
      if !granted {
        code := table.Remove(e);
        free := [id] + free;
        return None;
      }
      regions := regions[id := e];
      refs := refs[id := 0];
      return Some(id);
    }

    method MakeEntry(low: nat, high: nat, granted: bool) returns (r: Option<nat>)
      requires Valid() && 1 <= low <= high
      modifies this`free, this`refs, this`regions, table
      ensures Database() && (AsCache(), r) == NewEntry(old(AsCache()), low, high, granted)
      ensures r.None? ==> Valid()
      ensures r.Some? ==> r.value in refs && InvBut(AsCache(), pool, r.value)
    {
      if |free| == 0 { return None; }
      ghost var c := AsCache();
      EntryFits(c, pool, Entry(free[0], low, 1 + (high - low)));
      if granted { GrantedAttempt(c, pool, low, high, granted); } else { FailedAttempt(c, pool, low, high, granted); }
      r := TakeFree(low, high, granted);
    }

    /** An entry in use for the bytes from buf on, or nothing. */
    method RegisterBytes(buf: nat, len: nat, grants: nat -> bool) returns (r: Option<nat>)
      requires Valid() && len >= 1 && buf >= PAGE_SIZE
      modifies this, table
      ensures Valid() && (AsCache(), r) == Register(old(AsCache()), buf, len, grants)
    {
      var low, high := buf / PAGE_SIZE, (buf + len - 1) / PAGE_SIZE;
      ghost var c := AsCache();
      FindFinds(c, pool, low, high);
      var found := table.Lookup(low, high);
      if found.Some? {
        AddRef(found.value.id);
        return Some(found.value.id);
      }
      AcquireKeeps(c, pool, low, high, grants, 0);
      r := AcquireEntry(low, high, grants);
      if r.Some? { AddRef(r.value); }
    }

    /** Evict an entry, if there is one, and try again. */
    method Retry(low: nat, high: nat, grants: nat -> bool, attempt: nat) returns (evicted: bool, r: Option<nat>)
      requires Valid() && 1 <= low <= high
      modifies this, table
      ensures Database() && evicted == (old(unused) != [])
      ensures r.None? ==> Valid()
      ensures r.Some? ==> r.value in refs && InvBut(AsCache(), pool, r.value)
      ensures evicted ==> |unused| < old(|unused|)
      ensures evicted ==> old(Evictable(AsCache()))
      ensures evicted ==> (AsCache(), r) == NewEntry(EvictAny(old(AsCache())), low, high, grants(attempt))
      ensures !evicted ==> r.None? && AsCache() == old(AsCache())
    {
      var rc := EvictOne();
      evicted := rc != 0;
      r := None;
      if evicted { r := MakeEntry(low, high, grants(attempt)); }
    }

    /** The retry loop: evict after every failure until an attempt succeeds or nothing is left to evict. */
    method AcquireEntry(low: nat, high: nat, grants: nat -> bool) returns (r: Option<nat>)
      requires Valid() && 1 <= low <= high
      modifies this, table
      ensures Database() && (AsCache(), r) == Acquire(old(AsCache()), low, high, grants, 0)
      ensures r.None? ==> Valid()
      ensures r.Some? ==> r.value in refs && InvBut(AsCache(), pool, r.value)
    {
      var attempt: nat := 0;
      r := MakeEntry(low, high, grants(attempt));
      var evicted := true;
      while r.None? && evicted
        invariant Database() && (r.None? ==> Valid()) && (r.Some? ==> r.value in refs && InvBut(AsCache(), pool, r.value))
        invariant Acquire(old(AsCache()), low, high, grants, 0) == Outcome(AsCache(), low, high, grants, attempt, r)
        invariant !evicted ==> r.None? && !Evictable(AsCache())
        decreases r.None? && evicted, |unused|
      {
        evicted, r := Retry(low, high, grants, attempt + 1);
        if evicted { attempt := attempt + 1; }
      }
    }
  }

  function EvictAny(c: Cache): Cache {
    if Evictable(c) then Evict(c) else c
  }

  /** What an acquisition gives from here on, given the result of its latest attempt. */
  function Outcome(c: Cache, low: nat, high: nat, grants: nat -> bool, attempt: nat, r: Option<nat>): (Cache, Option<nat>)
    requires low <= high
  {
    if r.Some? then (c, r)
    else if !Evictable(c) then (c, None)
    else Acquire(Evict(c), low, high, grants, attempt + 1)
  }
}
