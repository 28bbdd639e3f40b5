/** The database of registered regions: the list of areas against the set of regions it stands for, and the class that
    keeps list and AVL index together. */
module VmaDb {
  import opened VmaList

  // ----- What the list stands for -----

  /** `list` holds, in order, exactly the registered regions that cover page p. */
  ghost predicate Lists(list: seq<Entry>, registered: set<Entry>, p: int) {
    Descending(list) && Regions(list) == set e | e in registered && e.Covers(p)
  }

  ghost predicate Fitting(registered: set<Entry>) {
    DistinctIds(registered) && forall e :: e in registered ==> e.Fits()
  }

  /** Disjoint ascending areas, neighbours that touch differ, and every page's area lists exactly the regions that
      cover the page; a page no region covers is in no area. */
  ghost predicate Represents(vmas: seq<Vma>, registered: set<Entry>) {
    && Areas(vmas, 0) && Separated(vmas)
    && forall p :: Lists(Cover(vmas, p), registered, p)
  }

  lemma {:induction false} DescendingUnique(a: seq<Entry>, b: seq<Entry>)
    requires Descending(a) && Descending(b) && Regions(a) == Regions(b) && DistinctIds(Regions(a))
    ensures a == b
  {
    if a != [] && b != [] {
      assert a[0] in Regions(b) && b[0] in Regions(a);
      HeadOnce(a);
      HeadOnce(b);
      assert Regions(a[1..]) == Regions(a) - {a[0]} == Regions(b[1..]);
      DescendingUnique(a[1..], b[1..]);
      assert a == [a[0]] + a[1..] && b == [b[0]] + b[1..];
    }
  }

  lemma HeadOnce(a: seq<Entry>)
    requires a != [] && Descending(a)
    ensures a[0] !in Regions(a[1..])
  {
  }

  /** Disjoint areas whose touching neighbours differ are determined by what they say page by page. */
  lemma {:induction false} Canonical(u: seq<Vma>, w: seq<Vma>, low: int)
    requires Areas(u, low) && Separated(u) && Areas(w, low) && Separated(w) && SameCover(u, w)
    ensures u == w
  {
    if u != [] { assert Cover(u, u[0].start) == u[0].list; }
    if w != [] { assert Cover(w, w[0].start) == w[0].list; }
    if u != [] && w != [] {
      SameFirst(u, w, low);
      SameFirst(w, u, low);
      forall p ensures Cover(u[1..], p) == Cover(w[1..], p) {
        assert Cover(u, p) == Cover(w, p);
        if p <= u[0].end {
          CoverBelow(u[1..], u[0].end, p);
          CoverBelow(w[1..], w[0].end, p);
        }
      }
      Canonical(u[1..], w[1..], u[0].end);
      assert u == [u[0]] + u[1..] && w == [w[0]] + w[1..];
    }
  }

  lemma SameFirst(u: seq<Vma>, w: seq<Vma>, low: int)
    requires Areas(u, low) && Areas(w, low) && Separated(w) && SameCover(u, w) && u != [] && w != []
    ensures w[0].start <= u[0].start && w[0].end >= u[0].end && (w[0].start == u[0].start ==> w[0].list == u[0].list)
  {
    assert Cover(u, u[0].start) == u[0].list == Cover(w, u[0].start);
    if w[0].start > u[0].start { CoverBelow(w, w[0].start - 1, u[0].start); }
    assert Cover(w, w[0].start) == Cover(u, w[0].start);
    if u[0].start > w[0].start { CoverBelow(u, u[0].start - 1, w[0].start); }
    if w[0].end < u[0].end {
      assert Cover(u, w[0].end + 1) == u[0].list == Cover(w, w[0].end + 1) == Cover(w[1..], w[0].end + 1);
      if |w| == 1 || w[1].start > w[0].end + 1 { CoverBelow(w[1..], w[0].end + 1, w[0].end + 1); }
    }
  }

  /** The list of areas depends only on which regions are registered, not on the order of inserts and removes that led
      there, nor on the splits and merges along the way. */
  lemma RepresentationUnique(u: seq<Vma>, w: seq<Vma>, registered: set<Entry>)
    requires Represents(u, registered) && Represents(w, registered) && DistinctIds(registered)
    ensures u == w
  {
    forall p ensures Cover(u, p) == Cover(w, p) { DescendingUnique(Cover(u, p), Cover(w, p)); }
    Canonical(u, w, 0);
  }

  // ----- Inserting and removing one region -----

  /** Insertion starts at the first area that ends at or after `begin`. */
  function InsertRange(vmas: seq<Vma>, begin: int, end: int, r: Entry): seq<Vma> {
    if vmas != [] && vmas[0].end < begin then [vmas[0]] + InsertRange(vmas[1..], begin, end, r)
    else InsertFrom(vmas, begin, end, r)
  }

  function Inserted(vmas: seq<Vma>, r: Entry): seq<Vma> {
    InsertRange(vmas, r.Begin(), r.End(), r)
  }

  /** Position of the area that holds page p; the length of the list if there is none. */
  function HolderOf(vmas: seq<Vma>, p: int): (k: nat)
    ensures k <= |vmas|
  {
    if vmas == [] || vmas[0].Has(p) then 0 else 1 + HolderOf(vmas[1..], p)
  }

  function Removed(vmas: seq<Vma>, r: Entry): seq<Vma> {
    if HolderOf(vmas, r.Begin()) == |vmas| then vmas else RemoveFrom(vmas, HolderOf(vmas, r.Begin()), r.End(), r)
  }

  lemma {:induction false} InsertRangeAreas(vmas: seq<Vma>, low: int, begin: int, end: int, r: Entry)
    requires Areas(vmas, low) && low < begin
    ensures Areas(InsertRange(vmas, begin, end, r), low)
  {
    if vmas != [] && vmas[0].end < begin {
      InsertRangeAreas(vmas[1..], vmas[0].end, begin, end, r);
      assert InsertRange(vmas, begin, end, r)[1..] == InsertRange(vmas[1..], begin, end, r);
    } else {
      InsertAreas(vmas, low, begin, end, r);
    }
  }

  lemma {:induction false} InsertRangeCover(vmas: seq<Vma>, low: int, begin: int, end: int, r: Entry, p: int)
    requires Areas(vmas, low) && low < begin
    ensures Cover(InsertRange(vmas, begin, end, r), p) ==
      if begin <= p <= end then AddEntry(Cover(vmas, p), r) else Cover(vmas, p)
  {
    if vmas != [] && vmas[0].end < begin {
      InsertRangeCover(vmas[1..], vmas[0].end, begin, end, r, p);
      assert InsertRange(vmas, begin, end, r)[1..] == InsertRange(vmas[1..], begin, end, r);
    } else {
      InsertCover(vmas, low, begin, end, r, p);
    }
  }

  lemma {:induction false} InsertRangeSeparated(vmas: seq<Vma>, low: int, begin: int, end: int, r: Entry)
    requires Areas(vmas, low) && low < begin <= end && Separated(vmas) && Fresh(vmas, r)
    ensures Separated(InsertRange(vmas, begin, end, r))
  {
    if vmas != [] && vmas[0].end < begin {
      InsertRangeSeparated(vmas[1..], vmas[0].end, begin, end, r);
      if vmas[1..] == [] || vmas[1].end >= begin {
        InsertFirst(vmas[1..], begin, end, r);
        if |vmas| > 1 { RemoveUndoesAdd(vmas[1].list, r); }
      }
      ConsSeparated(vmas[0], InsertRange(vmas[1..], begin, end, r));
    } else {
      InsertSeparated(vmas, low, begin, end, r);
    }
  }

  lemma {:induction false} UnregisteredFresh(vmas: seq<Vma>, low: int, r: Entry)
    requires Areas(vmas, low) && forall p :: r !in Regions(Cover(vmas, p))
    ensures Fresh(vmas, r)
  {
    if vmas != [] {
      assert Cover(vmas, vmas[0].start) == vmas[0].list;
      forall p ensures r !in Regions(Cover(vmas[1..], p)) {
        assert r !in Regions(Cover(vmas, p));
        if p <= vmas[0].end { CoverBelow(vmas[1..], vmas[0].end, p); }
      }
      UnregisteredFresh(vmas[1..], vmas[0].end, r);
    }
  }

  /** Inserting a fresh region represents the registered set with the region added. */
  lemma InsertRepresents(vmas: seq<Vma>, registered: set<Entry>, r: Entry)
    requires Represents(vmas, registered) && Fitting(registered + {r}) && r !in registered
    ensures Represents(Inserted(vmas, r), registered + {r})
  {
    InsertRangeAreas(vmas, 0, r.Begin(), r.End(), r);
    UnregisteredFresh(vmas, 0, r);
    InsertRangeSeparated(vmas, 0, r.Begin(), r.End(), r);
    forall p ensures Lists(Cover(Inserted(vmas, r), p), registered + {r}, p) {
      InsertRangeCover(vmas, 0, r.Begin(), r.End(), r, p);
      assert Lists(Cover(vmas, p), registered, p);
      if r.Covers(p) { AddEntryKeeps(Cover(vmas, p), r); }
    }
  }

  lemma {:induction false} HolderOfPage(vmas: seq<Vma>, p: int)
    ensures HolderOf(vmas, p) < |vmas| ==> vmas[HolderOf(vmas, p)].Has(p)
    ensures HolderOf(vmas, p) == |vmas| ==> Cover(vmas, p) == []
  {
    if vmas != [] { HolderOfPage(vmas[1..], p); }
  }

  /** Where removal starts, and beyond where it ends, no area lists the region. */
  lemma RemovalStarts(vmas: seq<Vma>, registered: set<Entry>, r: Entry)
    requires Represents(vmas, registered) && HolderOf(vmas, r.Begin()) < |vmas|
    ensures Removing(vmas, HolderOf(vmas, r.Begin()), 0, r.End(), r)
  {
    var k := HolderOf(vmas, r.Begin());
    HolderOfPage(vmas, r.Begin());
    AreasByPosition(vmas, 0);
    SeparatedByPosition(vmas);
    forall j | 0 <= j < |vmas|
      ensures Descending(vmas[j].list) && (j < k || vmas[j].start > r.End() ==> r !in Regions(vmas[j].list))
    {
      CoverAt(vmas, 0, j, vmas[j].start);
      assert Lists(Cover(vmas, vmas[j].start), registered, vmas[j].start);
    }
  }

  /** Removing a region represents the registered set without it; removing one that is not registered changes nothing. */
  lemma RemoveRepresents(vmas: seq<Vma>, registered: set<Entry>, r: Entry)
    requires Represents(vmas, registered) && r.Fits()
    ensures Represents(Removed(vmas, r), registered - {r})
    ensures HolderOf(vmas, r.Begin()) == |vmas| ==> r !in registered
  {
    var k := HolderOf(vmas, r.Begin());
    if k == |vmas| {
      HolderOfPage(vmas, r.Begin());
      assert Lists(Cover(vmas, r.Begin()), registered, r.Begin());
      assert r in registered ==> r in Regions(Cover(vmas, r.Begin()));
      assert registered - {r} == registered;
    } else {
      RemovalStarts(vmas, registered, r);
      RemoveKeeps(vmas, k, 0, r.End(), r);
      AreasByPosition(Removed(vmas, r), 0);
      SeparatedByPosition(Removed(vmas, r));
      forall p ensures Lists(Cover(Removed(vmas, r), p), registered - {r}, p) {
        assert Lists(Cover(vmas, p), registered, p);
        RemoveEntryKeeps(Cover(vmas, p), r);
      }
    }
  }

  /** Removing a region that was just inserted gives back the very same list of areas. */
  lemma RemoveUndoesInsert(vmas: seq<Vma>, registered: set<Entry>, r: Entry)
    requires Represents(vmas, registered) && Fitting(registered + {r}) && r !in registered
    ensures Removed(Inserted(vmas, r), r) == vmas
  {
    InsertRepresents(vmas, registered, r);
    RemoveRepresents(Inserted(vmas, r), registered + {r}, r);
    assert registered + {r} - {r} == registered;
    RepresentationUnique(vmas, Removed(Inserted(vmas, r), r), registered);
  }

  // ----- Every run -----

  datatype Op = Add(entry: Entry) | Drop(entry: Entry)

  /** An insert is legal when the region is fresh, at a page of at least one, and at an address of its own. */
  ghost predicate Legal(ops: seq<Op>, registered: set<Entry>) {
    ops != [] ==>
      && (ops[0].Add? ==> ops[0].entry !in registered && Fitting(registered + {ops[0].entry}))
      && (ops[0].Drop? ==> ops[0].entry.Fits())
      && Legal(ops[1..], Registered(ops[0], registered))
  }

  function Registered(op: Op, registered: set<Entry>): set<Entry> {
    if op.Add? then registered + {op.entry} else registered - {op.entry}
  }

  function Apply(ops: seq<Op>, vmas: seq<Vma>): seq<Vma> {
    if ops == [] then vmas
    else Apply(ops[1..], if ops[0].Add? then Inserted(vmas, ops[0].entry) else Removed(vmas, ops[0].entry))
  }

  function RegisteredBy(ops: seq<Op>, registered: set<Entry>): set<Entry> {
    if ops == [] then registered else RegisteredBy(ops[1..], Registered(ops[0], registered))
  }

  /** After any run of inserts and removes the list represents exactly the regions then registered. */
  lemma {:induction false} RunRepresents(ops: seq<Op>, vmas: seq<Vma>, registered: set<Entry>)
    requires Represents(vmas, registered) && Fitting(registered) && Legal(ops, registered)
    ensures Represents(Apply(ops, vmas), RegisteredBy(ops, registered)) && Fitting(RegisteredBy(ops, registered))
  {
    if ops != [] {
      var r := ops[0].entry;
      if ops[0].Add? { InsertRepresents(vmas, registered, r); } else { RemoveRepresents(vmas, registered, r); }
      RunRepresents(ops[1..], if ops[0].Add? then Inserted(vmas, r) else Removed(vmas, r),
                    Registered(ops[0], registered));
    }
  }

  /** Two runs that end with the same regions registered end with the same list of areas. */
  lemma RunsAgree(a: seq<Op>, b: seq<Op>)
    requires Legal(a, {}) && Legal(b, {}) && RegisteredBy(a, {}) == RegisteredBy(b, {})
    ensures Apply(a, []) == Apply(b, [])
  {
    assert Represents([], {});
    RunRepresents(a, [], {});
    RunRepresents(b, [], {});
    RepresentationUnique(Apply(a, []), Apply(b, []), RegisteredBy(a, {}));
  }

  // ----- Lookup -----

  lemma HeadReachesFurthest(list: seq<Entry>, e: Entry)
    requires Descending(list) && e in Regions(list)
    ensures list != [] && list[0] in Regions(list) && list[0].End() >= e.End()
  {
    if e != list[0] { assert CompareDregs(list[0], e) > 0; }
  }

  /** The first region listed for page `begin` covers begin..end if any registered region does. */
  lemma LookupComplete(vmas: seq<Vma>, registered: set<Entry>, begin: int, end: int)
    requires Represents(vmas, registered) && begin <= end
    ensures var list := Cover(vmas, begin);
      (list != [] && list[0].End() >= end) <==> exists e :: e in registered && e.Covers(begin) && e.Covers(end)
    ensures var list := Cover(vmas, begin); list != [] ==> list[0] in registered && list[0].Covers(begin)
  {
    var list := Cover(vmas, begin);
    assert Lists(list, registered, begin);
    if list != [] { assert list[0] in Regions(list); }
    forall e | e in registered && e.Covers(begin) ensures list != [] && list[0].End() >= e.End() {
      assert e in Regions(list);
      HeadReachesFurthest(list, e);
    }
  }
}
