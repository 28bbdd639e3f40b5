/** What registering memory does, case by case: a hit, a miss with its evictions, a failure. */
module DregRegister {
  import opened Wrappers
  import opened VmaList
  import opened VmaDb
  import opened DregCache

  ghost predicate Covered(c: Cache, low: nat, high: nat, id: nat) {
    id in c.regions && c.regions[id].Covers(low) && c.regions[id].Covers(high)
  }

  ghost predicate HasCover(c: Cache, low: nat, high: nat) {
    exists id :: Covered(c, low, high, id)
  }

  /** If a registered region covers the first and the last page, registering finds such a region and only takes a reference
      to it: nothing is registered, evicted or taken from the free list. */
  lemma RegisterHits(c: Cache, pool: set<nat>, buf: nat, len: nat, grants: nat -> bool)
    requires Inv(c, pool) && len >= 1 && HasCover(c, FirstPage(buf), LastPage(buf, len))
    ensures var (d, r) := Register(c, buf, len, grants);
      && r.Some? && Covered(c, FirstPage(buf), LastPage(buf, len), r.value) && r.value in c.refs
      && d.free == c.free && d.regions == c.regions && d.vmas == c.vmas
      && d.refs == c.refs[r.value := c.refs[r.value] + 1]
      && (forall x :: x in Elements(d.unused) <==> x in Elements(c.unused) && x != r.value)
  {
    var low, high := FirstPage(buf), LastPage(buf, len);
    FindFinds(c, pool, low, high);
    var id := Find(c, low, high).value;
    WithoutIdElements(c.unused, id);
    assert id in Elements(c.unused) ==> c.refs[id] == 0;
  }

  // ----- Evictions -----

  function EvictTimes(c: Cache, k: nat): Cache {
    if k == 0 then c
    else
      var d := EvictTimes(c, k - 1);
      if Evictable(d) then Evict(d) else d
  }

  /** The last k of a list. */
  function Oldest(list: seq<nat>, k: nat): seq<nat>
    requires k <= |list|
  {
    list[|list| - k..]
  }

  /** Whatever is on the unused list can be evicted. */
  ghost predicate UnusedOk(c: Cache) {
    && (forall i :: 0 <= i < |c.unused| ==> c.unused[i] in c.regions)
    && forall i, j :: 0 <= i < j < |c.unused| ==> c.unused[i] != c.unused[j]
  }

  lemma InvUnusedOk(c: Cache, pool: set<nat>)
    requires Inv(c, pool)
    ensures UnusedOk(c)
  {
    forall i | 0 <= i < |c.unused| ensures c.unused[i] in c.regions {
      ElementAt(c.unused, c.unused[i]);
      assert c.unused[i] in c.refs.Keys;
    }
  }

  /** The cache e without the k entries that were unused for longest. */
  ghost predicate Gone(c: Cache, k: nat, e: Cache)
    requires k <= |c.unused|
  {
    && e.unused == c.unused[..|c.unused| - k]
    && (forall x :: x in e.regions <==> x in c.regions && x !in Oldest(c.unused, k))
    && (forall x :: x in e.refs <==> x in c.refs && x !in Oldest(c.unused, k))
    && (forall x :: x in e.regions ==> e.regions[x] == c.regions[x])
    && (forall x :: x in e.refs ==> e.refs[x] == c.refs[x])
  }

  lemma OneMoreGone(c: Cache, k: nat, d: Cache)
    requires UnusedOk(c) && k < |c.unused| && Gone(c, k, d)
    ensures Evictable(d) && Gone(c, k + 1, Evict(d)) && Evict(d).free == [Oldest(c.unused, k + 1)[0]] + d.free
  {
    var n := |c.unused|;
    assert d.unused[|d.unused| - 1] == c.unused[n - k - 1] == Oldest(c.unused, k + 1)[0];
    assert Oldest(c.unused, k + 1) == [c.unused[n - k - 1]] + Oldest(c.unused, k);
    assert c.unused[n - k - 1] !in Oldest(c.unused, k);
  }

  /** Evicting k times takes the k entries that were unused for longest; the last of them is the next free entry. */
  lemma {:induction false} EvictTimesTakesOldest(c: Cache, k: nat)
    requires UnusedOk(c) && k <= |c.unused|
    ensures Gone(c, k, EvictTimes(c, k))
    ensures k > 0 ==> EvictTimes(c, k).free != [] && EvictTimes(c, k).free[0] == Oldest(c.unused, k)[0]
  {
    if k == 0 {
      assert c.unused[..|c.unused|] == c.unused;
    } else {
      EvictTimesTakesOldest(c, k - 1);
      OneMoreGone(c, k - 1, EvictTimes(c, k - 1));
    }
  }

  lemma {:induction false} EvictTimesInv(c: Cache, pool: set<nat>, k: nat)
    requires Inv(c, pool)
    ensures Inv(EvictTimes(c, k), pool)
  {
    if k > 0 {
      EvictTimesInv(c, pool, k - 1);
      if Evictable(EvictTimes(c, k - 1)) { EvictInv(EvictTimes(c, k - 1), pool); }
    }
  }

  // ----- Attempts -----

  /** Does attempt number k of an acquisition succeed? */
  predicate Succeeds(c: Cache, grants: nat -> bool, k: nat) {
    grants(k) && (k > 0 || c.free != [])
  }

  /** Attempt number k, after as many evictions, fails. */
  lemma AttemptFails(c: Cache, pool: set<nat>, low: nat, high: nat, grants: nat -> bool, k: nat)
    requires Inv(c, pool) && 1 <= low <= high && k <= |c.unused| && !Succeeds(c, grants, k)
    ensures var d := EvictTimes(c, k); NewEntry(d, low, high, grants(k)) == (d, None)
  {
    EvictTimesInv(c, pool, k);
    FailedAttempt(EvictTimes(c, k), pool, low, high, grants(k));
  }

  /** The loop evicts as often as attempts fail. */
  lemma {:induction false} AcquireEvicts(c: Cache, low: nat, high: nat, grants: nat -> bool, k: nat)
    requires UnusedOk(c) && low <= high && k <= |c.unused|
    requires forall j: nat :: j < k ==> Attempt(c, low, high, grants, j) == (EvictTimes(c, j), None)
    ensures Acquire(c, low, high, grants, 0) == Acquire(EvictTimes(c, k), low, high, grants, k)
  {
    if k > 0 {
      AcquireEvicts(c, low, high, grants, k - 1);
      EvictTimesTakesOldest(c, k - 1);
      OneMoreGone(c, k - 1, EvictTimes(c, k - 1));
      assert Attempt(c, low, high, grants, k - 1) == (EvictTimes(c, k - 1), None);
    }
  }

  function Attempt(c: Cache, low: nat, high: nat, grants: nat -> bool, k: nat): (Cache, Option<nat>)
    requires low <= high
  {
    NewEntry(EvictTimes(c, k), low, high, grants(k))
  }

  lemma AttemptsFail(c: Cache, pool: set<nat>, low: nat, high: nat, grants: nat -> bool, k: nat)
    requires Inv(c, pool) && 1 <= low <= high && k <= |c.unused| && forall j: nat :: j < k ==> !Succeeds(c, grants, j)
    ensures Acquire(c, low, high, grants, 0) == Acquire(EvictTimes(c, k), low, high, grants, k)
  {
    InvUnusedOk(c, pool);
    forall j: nat | j < k ensures Attempt(c, low, high, grants, j) == (EvictTimes(c, j), None) {
      AttemptFails(c, pool, low, high, grants, j);
    }
    AcquireEvicts(c, low, high, grants, k);
  }

  // ----- Misses -----

  predicate OnPage(b: nat, p: nat) {
    b / PAGE_SIZE == p
  }

  /** The pages from the first to the last are those of the bytes. */
  lemma PagesOfBytes(buf: nat, len: nat, p: nat)
    requires len >= 1
    ensures FirstPage(buf) <= p <= LastPage(buf, len) <==> exists b: nat :: buf <= b < buf + len && OnPage(b, p)
  {
    if FirstPage(buf) <= p <= LastPage(buf, len) {
      var b := if p == FirstPage(buf) then buf else p * PAGE_SIZE;
      assert OnPage(b, p);
    }
  }

  /** Exactly the pages of the bytes are covered. */
  ghost predicate CoversBytes(e: Entry, buf: nat, len: nat) {
    forall p: nat :: e.Covers(p) <==> exists b: nat :: buf <= b < buf + len && OnPage(b, p)
  }

  lemma EntryCoversBytes(id: nat, buf: nat, len: nat)
    requires len >= 1
    ensures CoversBytes(Entry(id, FirstPage(buf), 1 + (LastPage(buf, len) - FirstPage(buf))), buf, len)
  {
    var e := Entry(id, FirstPage(buf), 1 + (LastPage(buf, len) - FirstPage(buf)));
    forall p: nat ensures e.Covers(p) <==> exists b: nat :: buf <= b < buf + len && OnPage(b, p) {
      PagesOfBytes(buf, len, p);
    }
  }

  /** One entry more than the cache e has, for the bytes, with one reference. */
  ghost predicate Added(e: Cache, buf: nat, len: nat, d: Cache, id: nat) {
    && e.free != [] && id == e.free[0] && d.free == e.free[1..]
    && id in d.regions && CoversBytes(d.regions[id], buf, len) && id in d.refs && d.refs[id] == 1
    && (forall x :: x != id ==> (x in d.regions <==> x in e.regions) && (x in d.refs <==> x in e.refs))
    && (forall x :: x in e.regions && x != id ==> d.regions[x] == e.regions[x])
    && (forall x :: x in e.refs && x != id ==> d.refs[x] == e.refs[x])
    && (forall x :: x in Elements(d.unused) <==> x in Elements(e.unused) && x != id)
  }

  lemma MadeAndTaken(e: Cache, pool: set<nat>, buf: nat, len: nat)
    requires Inv(e, pool) && len >= 1 && e.free != []
    ensures var (d, r) := NewEntry(e, FirstPage(buf), LastPage(buf, len), true);
      r.Some? && r.value in d.refs && Added(e, buf, len, Incr(d, r.value), r.value)
  {
    EntryCoversBytes(e.free[0], buf, len);
    WithoutIdElements(e.unused, e.free[0]);
  }

  lemma MissIsMiss(c: Cache, pool: set<nat>, low: nat, high: nat)
    requires Inv(c, pool) && low <= high && !HasCover(c, low, high)
    ensures Find(c, low, high).None?
  {
    FindFinds(c, pool, low, high);
    if Find(c, low, high).Some? { assert Covered(c, low, high, Find(c, low, high).value); }
  }

  /** If no registered region covers the pages, registering evicts once for every attempt that fails, each time what has
      been unused for longest, and then makes one entry, for exactly the pages of the bytes asked for.  So nothing is
      evicted if the first attempt succeeds. */
  lemma RegisterMisses(c: Cache, pool: set<nat>, buf: nat, len: nat, grants: nat -> bool, k: nat)
    requires Inv(c, pool) && len >= 1 && buf >= PAGE_SIZE && !HasCover(c, FirstPage(buf), LastPage(buf, len))
    requires k <= |c.unused| && Succeeds(c, grants, k) && forall j: nat :: j < k ==> !Succeeds(c, grants, j)
    ensures var ((d, r), e) := (Register(c, buf, len, grants), EvictTimes(c, k));
      && r.Some? && Gone(c, k, e) && Added(e, buf, len, d, r.value)
      && (k > 0 ==> r.value == Oldest(c.unused, k)[0]) && (k == 0 ==> e == c)
  {
    var low, high := FirstPage(buf), LastPage(buf, len);
    MissIsMiss(c, pool, low, high);
    AttemptsFail(c, pool, low, high, grants, k);
    InvUnusedOk(c, pool);
    EvictTimesTakesOldest(c, k);
    EvictTimesInv(c, pool, k);
    MadeAndTaken(EvictTimes(c, k), pool, buf, len);
  }

  lemma LastAttemptFails(c: Cache, pool: set<nat>, low: nat, high: nat, grants: nat -> bool)
    requires Inv(c, pool) && 1 <= low <= high && !Succeeds(c, grants, |c.unused|)
    ensures Acquire(EvictTimes(c, |c.unused|), low, high, grants, |c.unused|).1 == None
  {
    InvUnusedOk(c, pool);
    EvictTimesTakesOldest(c, |c.unused|);
    AttemptFails(c, pool, low, high, grants, |c.unused|);
  }

  /** If no attempt succeeds, registering fails. */
  lemma RegisterFails(c: Cache, pool: set<nat>, buf: nat, len: nat, grants: nat -> bool)
    requires Inv(c, pool) && len >= 1 && buf >= PAGE_SIZE && !HasCover(c, FirstPage(buf), LastPage(buf, len))
    requires forall j: nat :: j <= |c.unused| ==> !Succeeds(c, grants, j)
    ensures Register(c, buf, len, grants).1 == None
  {
    var low, high := FirstPage(buf), LastPage(buf, len);
    MissIsMiss(c, pool, low, high);
    AttemptsFail(c, pool, low, high, grants, |c.unused|);
    LastAttemptFails(c, pool, low, high, grants);
  }
}
