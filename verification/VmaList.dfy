/** The list of virtual memory areas behind the registration cache: what inserting and removing one registered
    region does to it, and what the list then says about every page. */
module VmaList {

  /** A registered region; `id` is its address, which breaks ties and tells regions apart. */
  datatype Entry = Entry(id: nat, pagenum: nat, npages: nat) {
    predicate Fits() {
      pagenum >= 1 && npages >= 1
    }

    function Begin(): int {
      pagenum
    }

    function End(): int {
      pagenum + npages - 1
    }

    predicate Covers(p: int) {
      Begin() <= p <= End()
    }
  }

  /** Pages start..end, all covered by exactly the regions of `list`. */
  datatype Vma = Vma(start: int, end: int, list: seq<Entry>) {
    predicate Has(p: int) {
      start <= p <= end
    }
  }

  // ----- Lists of regions, largest end first -----

  function CompareDregs(a: Entry, b: Entry): int {
    if a.End() != b.End() then a.End() - b.End() else a.id - b.id
  }

  ghost function Regions(list: seq<Entry>): set<Entry> {
    if list == [] then {} else {list[0]} + Regions(list[1..])
  }

  ghost predicate Descending(list: seq<Entry>) {
    list != [] ==> (forall e :: e in Regions(list[1..]) ==> CompareDregs(list[0], e) > 0) && Descending(list[1..])
  }

  function AddEntry(list: seq<Entry>, r: Entry): seq<Entry> {
    if list != [] && CompareDregs(list[0], r) > 0 then [list[0]] + AddEntry(list[1..], r) else [r] + list
  }

  function RemoveEntry(list: seq<Entry>, r: Entry): seq<Entry> {
    if list == [] then [] else if list[0] == r then list[1..] else [list[0]] + RemoveEntry(list[1..], r)
  }

  /** No region is told apart by anything but its address. */
  ghost predicate DistinctIds(s: set<Entry>) {
    forall a, b :: a in s && b in s && a.id == b.id ==> a == b
  }

  lemma {:induction false} AddEntryKeeps(list: seq<Entry>, r: Entry)
    requires Descending(list) && r !in Regions(list) && DistinctIds(Regions(list) + {r})
    ensures Descending(AddEntry(list, r))
    ensures Regions(AddEntry(list, r)) == Regions(list) + {r}
  {
    if list != [] && CompareDregs(list[0], r) > 0 {
      AddEntryKeeps(list[1..], r);
      assert AddEntry(list, r)[1..] == AddEntry(list[1..], r);
    } else {
      assert ([r] + list)[1..] == list;
      if list != [] {
        assert list[0] in Regions(list) + {r};
        assert CompareDregs(r, list[0]) > 0;
      }
    }
  }

  lemma {:induction false} RemoveEntryKeeps(list: seq<Entry>, r: Entry)
    requires Descending(list)
    ensures Descending(RemoveEntry(list, r))
    ensures Regions(RemoveEntry(list, r)) == Regions(list) - {r}
  {
    if list != [] && list[0] != r {
      RemoveEntryKeeps(list[1..], r);
      assert RemoveEntry(list, r)[1..] == RemoveEntry(list[1..], r);
    }
  }

  // ----- The list of areas -----

  /** Areas are non-empty, ascend without overlapping, and lie above `low`. */
  ghost predicate Areas(vmas: seq<Vma>, low: int) {
    vmas != [] ==>
      low < vmas[0].start <= vmas[0].end && vmas[0].list != [] && Areas(vmas[1..], vmas[0].end)
  }

  /** The list of the area that holds page p; empty if none does. */
  function Cover(vmas: seq<Vma>, p: int): seq<Entry> {
    if vmas == [] then [] else if vmas[0].Has(p) then vmas[0].list else Cover(vmas[1..], p)
  }

  predicate Touch(a: Vma, b: Vma) {
    a.end + 1 == b.start
  }

  /** Areas that touch have different lists. */
  ghost predicate Separated(vmas: seq<Vma>) {
    |vmas| >= 2 ==> !(Touch(vmas[0], vmas[1]) && vmas[0].list == vmas[1].list) && Separated(vmas[1..])
  }

  lemma {:induction false} CoverBelow(vmas: seq<Vma>, low: int, p: int)
    requires Areas(vmas, low) && p <= low
    ensures Cover(vmas, p) == []
  {
    if vmas != [] { CoverBelow(vmas[1..], vmas[0].end, p); }
  }

  // ----- Insertion -----

  function Min(a: int, b: int): int {
    if a < b then a else b
  }

  /** The areas from the one closest to `begin` on, after the pages begin..end got region r: split at the ends of the
      range, fill the gaps, add r to every list in between. */
  function InsertFrom(vmas: seq<Vma>, begin: int, end: int, r: Entry): seq<Vma>
    decreases |vmas|, if begin <= end then end - begin + 1 else 0, if vmas != [] && vmas[0].start < begin then 1 else 0
  {
    if begin > end then vmas
    else if vmas == [] then [Vma(begin, end, [r])]
    else
      var i := vmas[0];
      if i.start > begin then
        var stop := Min(i.start - 1, end);
        [Vma(begin, stop, [r])] + InsertFrom(vmas, stop + 1, end, r)
      else if i.start == begin then
        if i.end > end then
          [Vma(begin, end, AddEntry(i.list, r)), Vma(end + 1, i.end, i.list)] + vmas[1..]
        else
          [Vma(begin, i.end, AddEntry(i.list, r))] + InsertFrom(vmas[1..], i.end + 1, end, r)
      else
        [Vma(i.start, begin - 1, i.list)] + InsertFrom([Vma(begin, i.end, i.list)] + vmas[1..], begin, end, r)
  }

  /** The first area reaches the page where insertion starts. */
  ghost predicate Closest(vmas: seq<Vma>, begin: int) {
    vmas != [] ==> vmas[0].end >= begin
  }

  lemma {:induction false} InsertAreas(vmas: seq<Vma>, low: int, begin: int, end: int, r: Entry)
    requires Areas(vmas, low) && low < begin && (begin <= end ==> Closest(vmas, begin))
    ensures Areas(InsertFrom(vmas, begin, end, r), low)
    decreases |vmas|, if begin <= end then end - begin + 1 else 0, if vmas != [] && vmas[0].start < begin then 1 else 0
  {
    if begin <= end && vmas != [] {
      var i := vmas[0];
      var out := InsertFrom(vmas, begin, end, r);
      if i.start > begin {
        var stop := Min(i.start - 1, end);
        InsertAreas(vmas, stop, stop + 1, end, r);
        assert out[1..] == InsertFrom(vmas, stop + 1, end, r);
      } else if i.start == begin {
        if i.end > end {
          assert out[1..] == [Vma(end + 1, i.end, i.list)] + vmas[1..] && out[1..][1..] == vmas[1..];
        } else {
          InsertAreas(vmas[1..], i.end, i.end + 1, end, r);
          assert out[1..] == InsertFrom(vmas[1..], i.end + 1, end, r);
        }
      } else {
        var rest := [Vma(begin, i.end, i.list)] + vmas[1..];
        assert rest[1..] == vmas[1..];
        InsertAreas(rest, begin - 1, begin, end, r);
        assert out[1..] == InsertFrom(rest, begin, end, r);
      }
    }
  }

  /** Page by page, insertion adds the region to the pages of its range and to no other. */
  /** The new region ends inside the area that starts where it does. */
  lemma InsertInsideCover(vmas: seq<Vma>, low: int, begin: int, end: int, r: Entry, p: int)
    requires Areas(vmas, low) && low < begin <= end && vmas != [] && vmas[0].start == begin && vmas[0].end > end
    ensures Cover(InsertFrom(vmas, begin, end, r), p) ==
      if begin <= p <= end then AddEntry(Cover(vmas, p), r) else Cover(vmas, p)
  {
    var i := vmas[0];
    var out := InsertFrom(vmas, begin, end, r);
    assert out[1..] == [Vma(end + 1, i.end, i.list)] + vmas[1..] && out[1..][1..] == vmas[1..];
    if p < begin { CoverBelow(vmas[1..], i.end, p); }
  }

  lemma {:induction false} InsertCover(vmas: seq<Vma>, low: int, begin: int, end: int, r: Entry, p: int)
    requires Areas(vmas, low) && low < begin && (begin <= end ==> Closest(vmas, begin))
    ensures Cover(InsertFrom(vmas, begin, end, r), p) ==
      if begin <= p <= end then AddEntry(Cover(vmas, p), r) else Cover(vmas, p)
    decreases |vmas|, if begin <= end then end - begin + 1 else 0, if vmas != [] && vmas[0].start < begin then 1 else 0
  {
    if begin <= end && vmas != [] {
      var i := vmas[0];
      var out := InsertFrom(vmas, begin, end, r);
      if i.start > begin {
        var stop := Min(i.start - 1, end);
        InsertCover(vmas, stop, stop + 1, end, r, p);
        assert out[1..] == InsertFrom(vmas, stop + 1, end, r);
        if p <= stop { CoverBelow(vmas, stop, p); }
      } else if i.start == begin {
        if i.end > end {
          InsertInsideCover(vmas, low, begin, end, r, p);
        } else {
          InsertCover(vmas[1..], i.end, i.end + 1, end, r, p);
          assert out[1..] == InsertFrom(vmas[1..], i.end + 1, end, r);
        }
      } else {
        var rest := [Vma(begin, i.end, i.list)] + vmas[1..];
        assert rest[1..] == vmas[1..];
        InsertCover(rest, begin - 1, begin, end, r, p);
        assert out[1..] == InsertFrom(rest, begin, end, r);
        if p < begin { CoverBelow(rest, begin - 1, p); CoverBelow(vmas[1..], i.end, p); }
      }
    }
  }

  lemma {:induction false} RemoveUndoesAdd(list: seq<Entry>, r: Entry)
    requires r !in Regions(list)
    ensures RemoveEntry(AddEntry(list, r), r) == list
    ensures |AddEntry(list, r)| == |list| + 1 && r in Regions(AddEntry(list, r))
  {
    if list != [] && CompareDregs(list[0], r) > 0 {
      RemoveUndoesAdd(list[1..], r);
      assert AddEntry(list, r)[1..] == AddEntry(list[1..], r);
    }
  }

  ghost predicate Fresh(vmas: seq<Vma>, r: Entry) {
    vmas != [] ==> r !in Regions(vmas[0].list) && Fresh(vmas[1..], r)
  }

  /** How the result of an insertion begins. */
  lemma InsertFirst(vmas: seq<Vma>, begin: int, end: int, r: Entry)
    requires begin <= end
    ensures var out := InsertFrom(vmas, begin, end, r);
      && out != []
      && (vmas != [] && vmas[0].start < begin ==> out[0] == Vma(vmas[0].start, begin - 1, vmas[0].list))
      && (vmas != [] && vmas[0].start == begin ==> out[0].start == begin && out[0].list == AddEntry(vmas[0].list, r))
      && (vmas == [] || vmas[0].start > begin ==> out[0].start == begin && out[0].list == [r])
  {
  }

  ghost predicate Joint(a: Vma, rest: seq<Vma>) {
    rest != [] && Touch(a, rest[0]) ==> a.list != rest[0].list
  }

  lemma ConsSeparated(a: Vma, rest: seq<Vma>)
    requires Separated(rest) && Joint(a, rest)
    ensures Separated([a] + rest)
  {
    assert ([a] + rest)[1..] == rest;
  }

  lemma FillSeparated(vmas: seq<Vma>, begin: int, end: int, r: Entry)
    requires begin <= end && vmas != [] && vmas[0].start > begin && vmas[0].list != [] && Fresh(vmas, r)
    requires var stop := Min(vmas[0].start - 1, end);
      Separated(InsertFrom(vmas, stop + 1, end, r)) && (stop == end ==> stop + 1 <= vmas[0].start)
    ensures Separated(InsertFrom(vmas, begin, end, r))
  {
    var stop := Min(vmas[0].start - 1, end);
    RemoveUndoesAdd(vmas[0].list, r);
    if stop < end { InsertFirst(vmas, stop + 1, end, r); }
    ConsSeparated(Vma(begin, stop, [r]), InsertFrom(vmas, stop + 1, end, r));
  }

  lemma SplitSeparated(start: int, rest: seq<Vma>, begin: int, end: int, r: Entry)
    requires begin <= end && rest != [] && rest[0].start == begin && r !in Regions(rest[0].list)
    requires Separated(InsertFrom(rest, begin, end, r))
    ensures Separated([Vma(start, begin - 1, rest[0].list)] + InsertFrom(rest, begin, end, r))
  {
    InsertFirst(rest, begin, end, r);
    RemoveUndoesAdd(rest[0].list, r);
    ConsSeparated(Vma(start, begin - 1, rest[0].list), InsertFrom(rest, begin, end, r));
  }

  lemma CutSeparated(i: Vma, rest: seq<Vma>, end: int, r: Entry)
    requires Joint(i, rest) && Separated(rest) && r !in Regions(i.list)
    ensures Separated([Vma(i.start, end, AddEntry(i.list, r)), Vma(end + 1, i.end, i.list)] + rest)
  {
    var upper := Vma(end + 1, i.end, i.list);
    var lower := Vma(i.start, end, AddEntry(i.list, r));
    RemoveUndoesAdd(i.list, r);
    ConsSeparated(upper, rest);
    ConsSeparated(lower, [upper] + rest);
    assert [lower] + ([upper] + rest) == [lower, upper] + rest;
  }

  /** Inserting a region that is in no list yet never makes two touching areas alike. */
  lemma {:induction false} InsertSeparated(vmas: seq<Vma>, low: int, begin: int, end: int, r: Entry)
    requires Areas(vmas, low) && low < begin && (begin <= end ==> Closest(vmas, begin))
    requires Separated(vmas) && Fresh(vmas, r)
    ensures Separated(InsertFrom(vmas, begin, end, r))
    decreases |vmas|, if begin <= end then end - begin + 1 else 0, if vmas != [] && vmas[0].start < begin then 1 else 0
  {
    if begin <= end && vmas != [] {
      var i := vmas[0];
      if i.start > begin {
        var stop := Min(i.start - 1, end);
        InsertSeparated(vmas, stop, stop + 1, end, r);
        FillSeparated(vmas, begin, end, r);
      } else if i.start == begin && i.end > end {
        CutSeparated(i, vmas[1..], end, r);
      } else if i.start == begin {
        InsertSeparated(vmas[1..], i.end, i.end + 1, end, r);
        if i.end < end { InsertFirst(vmas[1..], i.end + 1, end, r); }
        AddKeepsJoint(i, vmas[1..], begin, end, r);
        ConsSeparated(Vma(begin, i.end, AddEntry(i.list, r)), InsertFrom(vmas[1..], i.end + 1, end, r));
      } else {
        var rest := [Vma(begin, i.end, i.list)] + vmas[1..];
        assert rest[1..] == vmas[1..];
        ConsSeparated(rest[0], vmas[1..]);
        InsertSeparated(rest, begin - 1, begin, end, r);
        SplitSeparated(i.start, rest, begin, end, r);
      }
    }
  }

  lemma AddKeepsJoint(i: Vma, rest: seq<Vma>, begin: int, end: int, r: Entry)
    requires Joint(i, rest) && r !in Regions(i.list) && Fresh(rest, r) && i.list != [] && i.end <= end
    ensures Joint(Vma(begin, i.end, AddEntry(i.list, r)), InsertFrom(rest, i.end + 1, end, r))
  {
    RemoveUndoesAdd(i.list, r);
    if rest != [] { RemoveUndoesAdd(rest[0].list, r); }
    if i.end < end { InsertFirst(rest, i.end + 1, end, r); }
  }

  // ----- The same by position -----

  ghost predicate AreasAt(w: seq<Vma>, low: int) {
    && (forall j :: 0 <= j < |w| ==> low < w[j].start <= w[j].end && w[j].list != [])
    && (forall i, j :: 0 <= i < j < |w| ==> w[i].end < w[j].start)
  }

  lemma {:induction false} AreasByPosition(w: seq<Vma>, low: int)
    ensures Areas(w, low) <==> AreasAt(w, low)
  {
    if w != [] {
      AreasByPosition(w[1..], w[0].end);
      if AreasAt(w, low) {
        assert forall j :: 0 <= j < |w[1..]| ==> w[1..][j] == w[j + 1];
      }
      if Areas(w, low) {
        forall i, j | 0 <= i < j < |w| ensures w[i].end < w[j].start {
          assert w[j] == w[1..][j - 1];
          if i > 0 { assert w[i] == w[1..][i - 1]; }
        }
        forall j | 0 <= j < |w| ensures low < w[j].start <= w[j].end && w[j].list != [] {
          if j > 0 { assert w[j] == w[1..][j - 1]; }
        }
      }
    }
  }

  ghost predicate SeparatedAt(w: seq<Vma>) {
    forall j :: 0 <= j < |w| - 1 ==> !(Touch(w[j], w[j + 1]) && w[j].list == w[j + 1].list)
  }

  lemma {:induction false} SeparatedByPosition(w: seq<Vma>)
    ensures Separated(w) <==> SeparatedAt(w)
  {
    if |w| >= 2 {
      SeparatedByPosition(w[1..]);
      if SeparatedAt(w) {
        forall j | 0 <= j < |w[1..]| - 1
          ensures !(Touch(w[1..][j], w[1..][j + 1]) && w[1..][j].list == w[1..][j + 1].list)
        {
          var i := j + 1;
          assert w[1..][j] == w[i] && w[1..][j + 1] == w[i + 1];
        }
      }
      if Separated(w) {
        forall j | 0 <= j < |w| - 1 ensures !(Touch(w[j], w[j + 1]) && w[j].list == w[j + 1].list) {
          if j > 0 { assert w[j] == w[1..][j - 1] && w[j + 1] == w[1..][j - 1 + 1]; }
        }
      }
    }
  }

  lemma {:induction false} CoverAt(w: seq<Vma>, low: int, j: int, p: int)
    requires AreasAt(w, low) && 0 <= j < |w| && w[j].Has(p)
    ensures Cover(w, p) == w[j].list
  {
    if j > 0 { CoverAt(w[1..], w[0].end, j - 1, p); }
  }

  /** The position of the area that holds p, or the length of the list. */
  lemma {:induction false} Holder(w: seq<Vma>, p: int) returns (j: int)
    ensures 0 <= j <= |w|
    ensures j < |w| ==> w[j].Has(p)
    ensures j == |w| ==> Cover(w, p) == [] && forall i :: 0 <= i < |w| ==> !w[i].Has(p)
  {
    if w == [] || w[0].Has(p) {
      j := 0;
    } else {
      j := Holder(w[1..], p);
      j := j + 1;
      if j == |w| {
        forall i | 0 <= i < |w| ensures !w[i].Has(p) {
          if i > 0 { assert w[i] == w[1..][i - 1]; }
        }
      }
    }
  }

  // ----- Removal -----

  datatype Cursor = Cursor(w: seq<Vma>, k: nat)

  /** Swallow the area at k into its predecessor, if they touch and have the same list. */
  function MergePrev(w: seq<Vma>, k: nat): (c: Cursor)
    requires k < |w|
    ensures c.k < |c.w| && |c.w| - c.k == |w| - k
  {
    if k > 0 && Touch(w[k - 1], w[k]) && w[k].list == w[k - 1].list then
      Cursor(w[..k - 1] + [w[k - 1].(end := w[k].end)] + w[k + 1..], k - 1)
    else Cursor(w, k)
  }

  /** Swallow the successor of the area at k, if they touch and have the same list. */
  function MergeNext(w: seq<Vma>, k: nat): (c: Cursor)
    requires k < |w|
    ensures c.k < |c.w| && |c.w| - c.k <= |w| - k
  {
    if k + 1 < |w| && Touch(w[k], w[k + 1]) && w[k].list == w[k + 1].list then
      Cursor(w[..k] + [w[k].(end := w[k + 1].end)] + w[k + 2..], k)
    else Cursor(w, k)
  }

  function MergeOnce(w: seq<Vma>, k: nat): (c: Cursor)
    requires k < |w|
    ensures c.k < |c.w| && |c.w| - c.k <= |w| - k
    ensures |c.w| <= |w| && (|c.w| == |w| ==> c == Cursor(w, k))
  {
    var c := MergePrev(w, k);
    MergeNext(c.w, c.k)
  }

  function MergeAll(w: seq<Vma>, k: nat): (c: Cursor)
    requires k < |w|
    ensures c.k < |c.w| && |c.w| - c.k <= |w| - k
    decreases |w|
  {
    var c := MergeOnce(w, k);
    if |c.w| == |w| then c else MergeAll(c.w, c.k)
  }

  /** One area of a removal: take r out of the area at k, drop it if that empties it, merge it with its neighbours if
      not. */
  function RemoveStep(w: seq<Vma>, k: nat, r: Entry): (c: Cursor)
    requires k < |w|
    ensures c.k <= |c.w| && |c.w| - c.k < |w| - k
  {
    var list := RemoveEntry(w[k].list, r);
    if list == [] then Cursor(w[..k] + w[k + 1..], k)
    else
      var c := MergeAll(w[k := w[k].(list := list)], k);
      Cursor(c.w, c.k + 1)
  }

  /** The same for every area from position k on that starts by `end`. */
  function RemoveFrom(w: seq<Vma>, k: nat, end: int, r: Entry): seq<Vma>
    requires k <= |w|
    decreases |w| - k
  {
    if k == |w| || w[k].start > end then w
    else
      var c := RemoveStep(w, k, r);
      RemoveFrom(c.w, c.k, end, r)
  }

  /** Areas before the cursor, and areas past the end of the range, do not list r; all lists are in order. */
  ghost predicate OnlyAhead(w: seq<Vma>, k: nat, end: int, r: Entry) {
    && (forall j :: 0 <= j < |w| && (j < k || w[j].start > end) ==> r !in Regions(w[j].list))
    && (forall j :: 0 <= j < |w| ==> Descending(w[j].list))
  }

  ghost predicate IsMerged(w: seq<Vma>, k: nat, u: seq<Vma>) {
    && k + 1 < |w| && |u| == |w| - 1
    && Touch(w[k], w[k + 1]) && w[k].list == w[k + 1].list
    && u[k] == Vma(w[k].start, w[k + 1].end, w[k].list)
    && (forall j :: 0 <= j < k ==> u[j] == w[j])
    && (forall j :: k < j < |u| ==> u[j] == w[j + 1])
  }

  lemma MergedAreas(w: seq<Vma>, low: int, k: nat, u: seq<Vma>)
    requires AreasAt(w, low) && IsMerged(w, k, u)
    ensures AreasAt(u, low)
  {
  }

  lemma MergedCover(w: seq<Vma>, low: int, k: nat, u: seq<Vma>, p: int)
    requires AreasAt(w, low) && AreasAt(u, low) && IsMerged(w, k, u)
    ensures Cover(w, p) == Cover(u, p)
  {
    var i := Holder(w, p);
    if i < |w| {
      CoverAt(w, low, i, p);
      CoverAt(u, low, if i <= k then i else i - 1, p);
    } else {
      var j := Holder(u, p);
      if j < |u| { MergedHolder(w, k, u, j, p); }
    }
  }

  lemma MergedHolder(w: seq<Vma>, k: nat, u: seq<Vma>, j: nat, p: int)
    requires IsMerged(w, k, u) && j < |u| && u[j].Has(p)
    ensures exists i :: 0 <= i < |w| && w[i].Has(p)
  {
    assert w[if j < k then j else if j > k then j + 1 else if p <= w[k].end then k else k + 1].Has(p);
  }

  lemma MergedOnlyAhead(w: seq<Vma>, k: nat, at: nat, u: seq<Vma>, end: int, r: Entry)
    requires IsMerged(w, k, u) && k + 1 <= at <= k + 2 && OnlyAhead(w, at, end, r)
    ensures OnlyAhead(u, k + 1, end, r)
  {
  }

  ghost predicate SameCover(w: seq<Vma>, u: seq<Vma>) {
    forall p :: Cover(w, p) == Cover(u, p)
  }

  /** What the cursor of a removal keeps while it merges. */
  ghost predicate CursorOk(w: seq<Vma>, k: nat, low: int, end: int, r: Entry) {
    k < |w| && AreasAt(w, low) && OnlyAhead(w, k + 1, end, r)
  }

  lemma MergedKeeps(w: seq<Vma>, k: nat, at: nat, u: seq<Vma>, low: int, end: int, r: Entry)
    requires IsMerged(w, k, u) && k + 1 <= at <= k + 2 && AreasAt(w, low) && OnlyAhead(w, at, end, r)
    ensures CursorOk(u, k, low, end, r) && SameCover(w, u)
  {
    MergedAreas(w, low, k, u);
    MergedOnlyAhead(w, k, at, u, end, r);
    forall p ensures Cover(w, p) == Cover(u, p) { MergedCover(w, low, k, u, p); }
  }

  lemma MergePrevMerges(w: seq<Vma>, k: nat)
    requires k < |w| && MergePrev(w, k) != Cursor(w, k)
    ensures k > 0 && MergePrev(w, k).k == k - 1 && IsMerged(w, k - 1, MergePrev(w, k).w)
  {
  }

  lemma MergeNextMerges(w: seq<Vma>, k: nat)
    requires k < |w| && MergeNext(w, k) != Cursor(w, k)
    ensures MergeNext(w, k).k == k && IsMerged(w, k, MergeNext(w, k).w)
  {
  }

  lemma MergeOnceKeeps(w: seq<Vma>, k: nat, low: int, end: int, r: Entry)
    requires CursorOk(w, k, low, end, r)
    ensures CursorOk(MergeOnce(w, k).w, MergeOnce(w, k).k, low, end, r)
    ensures SameCover(w, MergeOnce(w, k).w)
  {
    var c := MergePrev(w, k);
    if c != Cursor(w, k) {
      MergePrevMerges(w, k);
      MergedKeeps(w, k - 1, k + 1, c.w, low, end, r);
    }
    if MergeNext(c.w, c.k) != c {
      MergeNextMerges(c.w, c.k);
      MergedKeeps(c.w, c.k, c.k + 1, MergeNext(c.w, c.k).w, low, end, r);
    }
  }

  lemma {:induction false} MergeAllKeeps(w: seq<Vma>, k: nat, low: int, end: int, r: Entry)
    requires CursorOk(w, k, low, end, r)
    ensures CursorOk(MergeAll(w, k).w, MergeAll(w, k).k, low, end, r)
    ensures SameCover(w, MergeAll(w, k).w)
    decreases |w|
  {
    MergeOnceKeeps(w, k, low, end, r);
    var c := MergeOnce(w, k);
    if |c.w| < |w| { MergeAllKeeps(c.w, c.k, low, end, r); }
  }

  /** No two neighbours are alike, but those that involve the area at k may be. */
  ghost predicate SeparatedBut(w: seq<Vma>, k: nat) {
    forall j :: 0 <= j < |w| - 1 && j != k - 1 && j != k ==> !(Touch(w[j], w[j + 1]) && w[j].list == w[j + 1].list)
  }

  lemma MergedSeparated(w: seq<Vma>, k: nat, m: nat, u: seq<Vma>)
    requires IsMerged(w, m, u) && k <= m + 1 && m <= k && SeparatedBut(w, k)
    ensures SeparatedBut(u, m)
  {
    forall j | 0 <= j < |u| - 1 && j != m - 1 && j != m
      ensures !(Touch(u[j], u[j + 1]) && u[j].list == u[j + 1].list)
    {
      var i := if j < m then j else j + 1;
      assert u[j] == w[i] && u[j + 1] == w[i + 1];
    }
  }

  lemma MergeOnceSeparated(w: seq<Vma>, k: nat)
    requires k < |w| && SeparatedBut(w, k)
    ensures SeparatedBut(MergeOnce(w, k).w, MergeOnce(w, k).k)
    ensures MergeOnce(w, k) == Cursor(w, k) ==> SeparatedAt(w)
  {
    var c := MergePrev(w, k);
    if c != Cursor(w, k) {
      MergePrevMerges(w, k);
      MergedSeparated(w, k, k - 1, c.w);
    }
    if MergeNext(c.w, c.k) != c {
      MergeNextMerges(c.w, c.k);
      MergedSeparated(c.w, c.k, c.k, MergeNext(c.w, c.k).w);
    }
  }

  lemma {:induction false} MergeAllSeparated(w: seq<Vma>, k: nat)
    requires k < |w| && SeparatedBut(w, k)
    ensures SeparatedAt(MergeAll(w, k).w)
    decreases |w|
  {
    MergeOnceSeparated(w, k);
    var c := MergeOnce(w, k);
    if |c.w| < |w| { MergeAllSeparated(c.w, c.k); }
  }

  lemma {:induction false} RemoveAbsent(list: seq<Entry>, r: Entry)
    requires r !in Regions(list)
    ensures RemoveEntry(list, r) == list
  {
    if list != [] { RemoveAbsent(list[1..], r); }
  }

  /** Does u say about every page what w says, once r is taken out of both? */
  ghost predicate SameButFor(w: seq<Vma>, u: seq<Vma>, r: Entry) {
    forall p :: RemoveEntry(Cover(w, p), r) == RemoveEntry(Cover(u, p), r)
  }

  /** Nothing ahead: no area lists r any more. */
  lemma RemovalDone(w: seq<Vma>, k: nat, low: int, end: int, r: Entry, p: int)
    requires AreasAt(w, low) && k <= |w| && OnlyAhead(w, k, end, r) && (k < |w| ==> w[k].start > end)
    ensures RemoveEntry(Cover(w, p), r) == Cover(w, p)
  {
    var j := Holder(w, p);
    if j < |w| {
      CoverAt(w, low, j, p);
      RemoveAbsent(w[j].list, r);
    }
  }

  ghost predicate IsDropped(w: seq<Vma>, k: nat, u: seq<Vma>) {
    && k < |w| && |u| == |w| - 1
    && (forall j :: 0 <= j < k ==> u[j] == w[j])
    && (forall j :: k <= j < |u| ==> u[j] == w[j + 1])
  }

  lemma DroppedKeeps(w: seq<Vma>, low: int, k: nat, u: seq<Vma>, end: int, r: Entry)
    requires AreasAt(w, low) && OnlyAhead(w, k, end, r) && SeparatedAt(w) && IsDropped(w, k, u)
    ensures AreasAt(u, low) && OnlyAhead(u, k, end, r) && SeparatedAt(u)
  {
    forall j | 0 <= j < |u| - 1 ensures !(Touch(u[j], u[j + 1]) && u[j].list == u[j + 1].list) {
      var i := if j < k then j else j + 1;
      assert u[j] == w[i] && (u[j + 1] == w[i + 1] || (j == k - 1 && u[j + 1] == w[k + 1] && w[k].start <= w[k].end));
    }
  }

  lemma DroppedHolder(w: seq<Vma>, k: nat, u: seq<Vma>, i: nat, p: int)
    requires IsDropped(w, k, u) && i < |w| && i != k && w[i].Has(p)
    ensures exists j :: 0 <= j < |u| && u[j].Has(p)
  {
    assert u[if i < k then i else i - 1].Has(p);
  }

  lemma DroppedCover(w: seq<Vma>, low: int, k: nat, u: seq<Vma>, r: Entry, p: int)
    requires AreasAt(w, low) && AreasAt(u, low) && IsDropped(w, k, u) && RemoveEntry(w[k].list, r) == []
    ensures RemoveEntry(Cover(w, p), r) == RemoveEntry(Cover(u, p), r)
  {
    var j := Holder(u, p);
    if j < |u| {
      CoverAt(u, low, j, p);
      CoverAt(w, low, if j < k then j else j + 1, p);
    } else {
      var i := Holder(w, p);
      if i < |w| {
        CoverAt(w, low, i, p);
        if i != k { DroppedHolder(w, k, u, i, p); }
      }
    }
  }

  ghost predicate IsRelisted(w: seq<Vma>, k: nat, u: seq<Vma>, list: seq<Entry>) {
    k < |w| && u == w[k := w[k].(list := list)]
  }

  lemma RelistedKeeps(w: seq<Vma>, low: int, k: nat, u: seq<Vma>, list: seq<Entry>, end: int, r: Entry)
    requires AreasAt(w, low) && OnlyAhead(w, k, end, r) && SeparatedAt(w) && IsRelisted(w, k, u, list)
    requires list != [] && Descending(list) && r !in Regions(list)
    ensures CursorOk(u, k, low, end, r) && SeparatedBut(u, k)
  {
  }

  lemma RelistedHolder(w: seq<Vma>, k: nat, u: seq<Vma>, list: seq<Entry>, i: nat, p: int)
    requires IsRelisted(w, k, u, list) && i < |u| && u[i].Has(p)
    ensures w[i].Has(p)
  {
  }

  lemma RelistedCover(w: seq<Vma>, low: int, k: nat, u: seq<Vma>, list: seq<Entry>, r: Entry, p: int)
    requires AreasAt(w, low) && AreasAt(u, low) && IsRelisted(w, k, u, list)
    requires list == RemoveEntry(w[k].list, r) && r !in Regions(list)
    ensures RemoveEntry(Cover(w, p), r) == RemoveEntry(Cover(u, p), r)
  {
    RemoveAbsent(list, r);
    var j := Holder(w, p);
    if j < |w| {
      CoverAt(w, low, j, p);
      CoverAt(u, low, j, p);
    } else {
      var i := Holder(u, p);
      if i < |u| { RelistedHolder(w, k, u, list, i, p); }
    }
  }

  /** What the cursor of a removal finds between two areas. */
  ghost predicate Removing(w: seq<Vma>, k: nat, low: int, end: int, r: Entry) {
    k <= |w| && AreasAt(w, low) && OnlyAhead(w, k, end, r) && SeparatedAt(w)
  }

  lemma DropStep(w: seq<Vma>, k: nat, low: int, end: int, r: Entry)
    requires Removing(w, k, low, end, r) && k < |w| && RemoveEntry(w[k].list, r) == []
    ensures Removing(w[..k] + w[k + 1..], k, low, end, r) && SameButFor(w, w[..k] + w[k + 1..], r)
  {
    var u := w[..k] + w[k + 1..];
    DroppedKeeps(w, low, k, u, end, r);
    forall p ensures RemoveEntry(Cover(w, p), r) == RemoveEntry(Cover(u, p), r) { DroppedCover(w, low, k, u, r, p); }
  }

  lemma RelistStep(w: seq<Vma>, k: nat, low: int, end: int, r: Entry)
    requires Removing(w, k, low, end, r) && k < |w| && RemoveEntry(w[k].list, r) != []
    ensures var u := w[k := w[k].(list := RemoveEntry(w[k].list, r))];
      CursorOk(u, k, low, end, r) && SeparatedBut(u, k) && SameButFor(w, u, r)
  {
    var list := RemoveEntry(w[k].list, r);
    var u := w[k := w[k].(list := list)];
    RemoveEntryKeeps(w[k].list, r);
    RelistedKeeps(w, low, k, u, list, end, r);
    forall p ensures RemoveEntry(Cover(w, p), r) == RemoveEntry(Cover(u, p), r) {
      RelistedCover(w, low, k, u, list, r, p);
    }
  }

  lemma MergeStep(u: seq<Vma>, k: nat, low: int, end: int, r: Entry)
    requires CursorOk(u, k, low, end, r) && SeparatedBut(u, k)
    ensures Removing(MergeAll(u, k).w, MergeAll(u, k).k + 1, low, end, r) && SameButFor(u, MergeAll(u, k).w, r)
  {
    MergeAllKeeps(u, k, low, end, r);
    MergeAllSeparated(u, k);
  }

  lemma RemoveStepKeeps(w: seq<Vma>, k: nat, low: int, end: int, r: Entry)
    requires Removing(w, k, low, end, r) && k < |w|
    ensures Removing(RemoveStep(w, k, r).w, RemoveStep(w, k, r).k, low, end, r)
    ensures SameButFor(w, RemoveStep(w, k, r).w, r)
  {
    var list := RemoveEntry(w[k].list, r);
    if list == [] {
      DropStep(w, k, low, end, r);
    } else {
      RelistStep(w, k, low, end, r);
      MergeStep(w[k := w[k].(list := list)], k, low, end, r);
    }
  }

  /** Page by page, u lists what w lists, without r. */
  ghost predicate Without(w: seq<Vma>, u: seq<Vma>, r: Entry) {
    forall p :: Cover(u, p) == RemoveEntry(Cover(w, p), r)
  }

  /** Page by page, removal takes the region out of every list, whatever was dropped or merged on the way; what is left
      is again a list of disjoint areas in which neighbours differ. */
  lemma {:induction false} RemoveKeeps(w: seq<Vma>, k: nat, low: int, end: int, r: Entry)
    requires Removing(w, k, low, end, r)
    ensures AreasAt(RemoveFrom(w, k, end, r), low) && SeparatedAt(RemoveFrom(w, k, end, r))
    ensures Without(w, RemoveFrom(w, k, end, r), r)
    decreases |w| - k
  {
    if k == |w| || w[k].start > end {
      forall p ensures RemoveEntry(Cover(w, p), r) == Cover(w, p) { RemovalDone(w, k, low, end, r, p); }
    } else {
      RemoveStepKeeps(w, k, low, end, r);
      var c := RemoveStep(w, k, r);
      RemoveKeeps(c.w, c.k, low, end, r);
    }
  }
}
