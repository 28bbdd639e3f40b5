/** The database as the program keeps it: the list of areas together with an AVL tree of their first pages. */
module VmaTable {
  import opened Wrappers
  import opened VmaList
  import opened VmaDb
  import T = AvlTree

  // ----- The index -----

  ghost function Starts(vmas: seq<Vma>): set<int> {
    if vmas == [] then {} else {vmas[0].start} + Starts(vmas[1..])
  }

  lemma {:induction false} StartsConcat(a: seq<Vma>, b: seq<Vma>)
    ensures Starts(a + b) == Starts(a) + Starts(b)
  {
    if a == [] {
      assert a + b == b;
    } else {
      assert (a + b)[1..] == a[1..] + b;
      StartsConcat(a[1..], b);
    }
  }

  lemma {:induction false} StartsByPosition(vmas: seq<Vma>, x: int)
    ensures x in Starts(vmas) <==> exists j :: 0 <= j < |vmas| && vmas[j].start == x
  {
    if vmas != [] {
      StartsByPosition(vmas[1..], x);
      if x in Starts(vmas[1..]) {
        var j :| 0 <= j < |vmas[1..]| && vmas[1..][j].start == x;
        assert vmas[j + 1].start == x;
      }
      if j :| 0 <= j < |vmas| && vmas[j].start == x {
        if j > 0 { assert vmas[1..][j - 1].start == x; }
      }
    }
  }

  /** The tree holds exactly the first pages of the areas on the list. */
  ghost predicate IndexAgrees(index: T.Tree, vmas: seq<Vma>) {
    T.Balanced(index) && T.Ordered(index) && T.Keys(index) == Starts(vmas)
  }

  ghost predicate Ascending(vmas: seq<Vma>) {
    forall i, j :: 0 <= i < j < |vmas| ==> vmas[i].start < vmas[j].start
  }

  lemma LinkAgrees(index: T.Tree, vmas: seq<Vma>, k: nat, v: Vma)
    requires IndexAgrees(index, vmas) && k <= |vmas|
    ensures IndexAgrees(T.Insert(index, v.start).tree, vmas[..k] + [v] + vmas[k..])
  {
    T.InsertKeys(index, v.start);
    assert vmas == vmas[..k] + vmas[k..];
    StartsConcat(vmas[..k], vmas[k..]);
    StartsConcat(vmas[..k], [v]);
    StartsConcat(vmas[..k] + [v], vmas[k..]);
  }

  lemma UnlinkAgrees(index: T.Tree, vmas: seq<Vma>, k: nat)
    requires IndexAgrees(index, vmas) && k < |vmas| && Ascending(vmas)
    ensures IndexAgrees(T.Delete(index, T.ByKey(vmas[k].start)).tree, vmas[..k] + vmas[k + 1..])
  {
    T.DeleteKey(index, vmas[k].start);
    StartsByPosition(vmas[..k], vmas[k].start);
    StartsByPosition(vmas[k + 1..], vmas[k].start);
    assert vmas == vmas[..k] + [vmas[k]] + vmas[k + 1..];
    StartsConcat(vmas[..k], [vmas[k]]);
    StartsConcat(vmas[..k] + [vmas[k]], vmas[k + 1..]);
    StartsConcat(vmas[..k], vmas[k + 1..]);
  }

  lemma RelabelAgrees(index: T.Tree, vmas: seq<Vma>, k: nat, v: Vma)
    requires IndexAgrees(index, vmas) && k < |vmas| && v.start == vmas[k].start
    ensures IndexAgrees(index, vmas[k := v]) && (Ascending(vmas) ==> Ascending(vmas[k := v]))
  {
    assert vmas == vmas[..k] + [vmas[k]] + vmas[k + 1..];
    assert vmas[k := v] == vmas[..k] + [v] + vmas[k + 1..];
    StartsConcat(vmas[..k], [vmas[k]]);
    StartsConcat(vmas[..k] + [vmas[k]], vmas[k + 1..]);
    StartsConcat(vmas[..k], [v]);
    StartsConcat(vmas[..k] + [v], vmas[k + 1..]);
  }

  // ----- Searching the index -----

  function CompareSearch(v: Vma, addr: int): int {
    if v.end < addr then 1 else if v.start <= addr then 0 else -1
  }

  /** `below` is where the preceding area ends; the sentinel before the first one ends at 0. */
  function CompareClosest(below: int, v: Vma, addr: int): int {
    if v.end < addr then 1 else if v.start <= addr || below < addr then 0 else -1
  }

  /** The area a node of the tree points to. */
  function Position(vmas: seq<Vma>, start: int): (k: nat)
    ensures k <= |vmas|
  {
    if vmas == [] || vmas[0].start == start then 0 else 1 + Position(vmas[1..], start)
  }

  function Below(vmas: seq<Vma>, k: nat): int
    requires k <= |vmas|
  {
    if k == 0 then 0 else vmas[k - 1].end
  }

  function SearchOrder(vmas: seq<Vma>, addr: int): int -> int {
    start => var k := Position(vmas, start); if k == |vmas| then 0 else CompareSearch(vmas[k], addr)
  }

  function ClosestOrder(vmas: seq<Vma>, addr: int): int -> int {
    start => var k := Position(vmas, start); if k == |vmas| then 0 else CompareClosest(Below(vmas, k), vmas[k], addr)
  }

  lemma {:induction false} PositionOf(vmas: seq<Vma>, j: nat)
    requires Ascending(vmas) && j < |vmas|
    ensures Position(vmas, vmas[j].start) == j
  {
    if j > 0 { PositionOf(vmas[1..], j - 1); }
  }

  lemma KeyPosition(vmas: seq<Vma>, key: int)
    requires Ascending(vmas) && key in Starts(vmas)
    ensures Position(vmas, key) < |vmas| && vmas[Position(vmas, key)].start == key
  {
    StartsByPosition(vmas, key);
    var j :| 0 <= j < |vmas| && vmas[j].start == key;
    PositionOf(vmas, j);
  }

  lemma SearchGuides(vmas: seq<Vma>, addr: int)
    requires AreasAt(vmas, 0)
    ensures T.Guides(SearchOrder(vmas, addr), Starts(vmas))
  {
    var f := SearchOrder(vmas, addr);
    forall a, b | a in Starts(vmas) && b in Starts(vmas) && a < b
      ensures !(f(a) < 0 && f(b) >= 0) && !(f(b) > 0 && f(a) <= 0)
    {
      KeyPosition(vmas, a);
      KeyPosition(vmas, b);
    }
  }

  lemma ClosestComparesInOrder(vmas: seq<Vma>, addr: int, i: nat, j: nat)
    requires AreasAt(vmas, 0) && i < j < |vmas|
    ensures CompareClosest(Below(vmas, i), vmas[i], addr) < 0 ==> CompareClosest(Below(vmas, j), vmas[j], addr) < 0
    ensures CompareClosest(Below(vmas, j), vmas[j], addr) > 0 ==> CompareClosest(Below(vmas, i), vmas[i], addr) > 0
  {
    assert vmas[i].end < vmas[j].start <= vmas[j].end;
    if i < j - 1 { assert vmas[i].end < vmas[j - 1].start; }
    if i > 0 { assert vmas[i - 1].end < vmas[i].start; }
  }

  lemma ClosestGuides(vmas: seq<Vma>, addr: int)
    requires AreasAt(vmas, 0)
    ensures T.Guides(ClosestOrder(vmas, addr), Starts(vmas))
  {
    var f := ClosestOrder(vmas, addr);
    forall a, b | a in Starts(vmas) && b in Starts(vmas) && a < b
      ensures !(f(a) < 0 && f(b) >= 0) && !(f(b) > 0 && f(a) <= 0)
    {
      KeyPosition(vmas, a);
      KeyPosition(vmas, b);
      ClosestComparesInOrder(vmas, addr, Position(vmas, a), Position(vmas, b));
    }
  }

  /** Where a tree search ends up on the list. */
  function Found(vmas: seq<Vma>, t: T.Tree): nat {
    if t.Empty? then |vmas| else Position(vmas, t.key)
  }

  /** Searching the tree for the area around a page finds the area that a scan of the list finds. */
  lemma SearchIsScan(index: T.Tree, vmas: seq<Vma>, addr: int)
    requires AreasAt(vmas, 0) && IndexAgrees(index, vmas)
    ensures Found(vmas, T.Find(index, SearchOrder(vmas, addr))) == HolderOf(vmas, addr)
  {
    var k := HolderOf(vmas, addr);
    HolderOfPage(vmas, addr);
    SearchGuides(vmas, addr);
    T.FindIsScan(index, SearchOrder(vmas, addr));
    if k < |vmas| {
      PositionOf(vmas, k);
      StartsByPosition(vmas, vmas[k].start);
    }
    var t := T.Find(index, SearchOrder(vmas, addr));
    if t.Node? {
      KeyPosition(vmas, t.key);
      CoverAt(vmas, 0, Position(vmas, t.key), addr);
    }
  }

  /** The first area that ends at or after `addr`. */
  function ClosestTo(vmas: seq<Vma>, addr: int): (k: nat)
    ensures k <= |vmas|
    ensures k < |vmas| ==> vmas[k].end >= addr
    ensures forall j :: 0 <= j < k ==> vmas[j].end < addr
  {
    if vmas == [] || vmas[0].end >= addr then 0 else 1 + ClosestTo(vmas[1..], addr)
  }

  lemma ClosestMatches(vmas: seq<Vma>, addr: int, k: nat)
    requires AreasAt(vmas, 0) && addr >= 1 && k < |vmas|
    ensures CompareClosest(Below(vmas, k), vmas[k], addr) == 0 <==> k == ClosestTo(vmas, addr)
  {
    var c := ClosestTo(vmas, addr);
    if k > 0 { assert vmas[k - 1].end < vmas[k].start; }
    if 0 < c < k { assert c == k - 1 || vmas[c].end < vmas[k - 1].start <= vmas[k - 1].end; }
    if 0 == c < k - 1 { assert vmas[c].end < vmas[k - 1].start <= vmas[k - 1].end; }
  }

  lemma ClosestAnswer(vmas: seq<Vma>, addr: int, k: nat)
    requires Ascending(vmas) && k < |vmas|
    ensures ClosestOrder(vmas, addr)(vmas[k].start) == CompareClosest(Below(vmas, k), vmas[k], addr)
  {
    PositionOf(vmas, k);
  }

  lemma ClosestFinds(index: T.Tree, vmas: seq<Vma>, addr: int)
    requires AreasAt(vmas, 0) && IndexAgrees(index, vmas) && addr >= 1
    ensures Found(vmas, T.Find(index, ClosestOrder(vmas, addr))) == ClosestTo(vmas, addr)
  {
    var k := ClosestTo(vmas, addr);
    ClosestGuides(vmas, addr);
    T.FindIsScan(index, ClosestOrder(vmas, addr));
    if k < |vmas| {
      ClosestMatches(vmas, addr, k);
      ClosestAnswer(vmas, addr, k);
      StartsByPosition(vmas, vmas[k].start);
    }
    var t := T.Find(index, ClosestOrder(vmas, addr));
    if t.Node? {
      KeyPosition(vmas, t.key);
      ClosestMatches(vmas, addr, Position(vmas, t.key));
      ClosestAnswer(vmas, addr, Position(vmas, t.key));
    }
  }

  /** The sentinel before the first area claims to end at page 0, so page 0 is closest to no area at all. */
  lemma ClosestMissesPageZero(index: T.Tree, vmas: seq<Vma>)
    requires AreasAt(vmas, 0) && IndexAgrees(index, vmas)
    ensures Found(vmas, T.Find(index, ClosestOrder(vmas, 0))) == |vmas|
  {
    ClosestGuides(vmas, 0);
    T.FindIsScan(index, ClosestOrder(vmas, 0));
    var t := T.Find(index, ClosestOrder(vmas, 0));
    if t.Node? { KeyPosition(vmas, t.key); }
  }

  /** Searching the tree for the closest area finds what a scan of the list finds, except for page 0. */
  lemma ClosestIsScan(index: T.Tree, vmas: seq<Vma>, addr: nat)
    requires AreasAt(vmas, 0) && IndexAgrees(index, vmas)
    ensures Found(vmas, T.Find(index, ClosestOrder(vmas, addr))) == ClosestTo(vmas, addr) <==> addr >= 1 || vmas == []
  {
    if addr >= 1 { ClosestFinds(index, vmas, addr); } else { ClosestMissesPageZero(index, vmas); }
  }

  /** So a region at page 0 would go to the end of a list that is not empty, out of order. */
  lemma PageZeroOutOfOrder(index: T.Tree, vmas: seq<Vma>, r: Entry, low: int)
    requires AreasAt(vmas, 0) && IndexAgrees(index, vmas) && vmas != [] && r.Begin() == 0 && r.npages >= 1
    ensures var i := Found(vmas, T.Find(index, ClosestOrder(vmas, r.Begin())));
      !AreasAt(vmas[..i] + InsertFrom(vmas[i..], r.Begin(), r.End(), r), low)
  {
    ClosestMissesPageZero(index, vmas);
    var w := vmas + [Vma(0, r.End(), [r])];
    assert vmas[..|vmas|] + InsertFrom(vmas[|vmas|..], 0, r.End(), r) == w;
    assert w[0] == vmas[0] && w[|vmas|].start == 0;
  }

  lemma {:induction false} InsertedFromClosest(vmas: seq<Vma>, begin: int, end: int, r: Entry)
    ensures var k := ClosestTo(vmas, begin);
      InsertRange(vmas, begin, end, r) == vmas[..k] + InsertFrom(vmas[k..], begin, end, r)
  {
    var k := ClosestTo(vmas, begin);
    if k > 0 {
      InsertedFromClosest(vmas[1..], begin, end, r);
      assert vmas[1..][k - 1..] == vmas[k..];
      assert vmas[..k] == [vmas[0]] + vmas[1..][..k - 1];
    } else {
      assert vmas[0..] == vmas;
    }
  }

  // ----- One round of the insertion loop -----

  /** What the insertion has still to produce, seen from its cursor. */
  function Pending(vmas: seq<Vma>, i: nat, begin: int, end: int, r: Entry): seq<Vma>
    requires i <= |vmas|
  {
    vmas[..i] + InsertFrom(vmas[i..], begin, end, r)
  }

  function Linked(vmas: seq<Vma>, k: nat, v: Vma): seq<Vma>
    requires k <= |vmas|
  {
    vmas[..k] + [v] + vmas[k..]
  }

  lemma StepAppend(vmas: seq<Vma>, begin: int, end: int, r: Entry, i: nat)
    requires begin <= end && i <= |vmas| + 1
    ensures Pending(Linked(vmas, |vmas|, Vma(begin, end, [r])), i, end + 1, end, r) == Pending(vmas, |vmas|, begin, end, r)
  {
    var w := Linked(vmas, |vmas|, Vma(begin, end, [r]));
    assert w == vmas + [Vma(begin, end, [r])] == w[..i] + w[i..];
  }

  lemma StepFill(vmas: seq<Vma>, i: nat, begin: int, end: int, r: Entry)
    requires i < |vmas| && begin <= end && begin < vmas[i].start
    ensures var stop := Min(vmas[i].start - 1, end);
      Pending(Linked(vmas, i, Vma(begin, stop, [r])), i + 1, stop + 1, end, r) == Pending(vmas, i, begin, end, r)
  {
    var stop := Min(vmas[i].start - 1, end);
    var w := Linked(vmas, i, Vma(begin, stop, [r]));
    assert w[..i + 1] == vmas[..i] + [Vma(begin, stop, [r])] && w[i + 1..] == vmas[i..];
  }

  lemma StepCut(vmas: seq<Vma>, i: nat, begin: int, end: int, r: Entry)
    requires i < |vmas| && begin == vmas[i].start <= end < vmas[i].end
    ensures var v := vmas[i];
      Pending(Linked(vmas[i := Vma(begin, end, AddEntry(v.list, r))], i + 1, Vma(end + 1, v.end, v.list)), i + 1, end + 1, end, r)
      == Pending(vmas, i, begin, end, r)
  {
    var v := vmas[i];
    var w := Linked(vmas[i := Vma(begin, end, AddEntry(v.list, r))], i + 1, Vma(end + 1, v.end, v.list));
    assert w[..i + 1] == vmas[..i] + [Vma(begin, end, AddEntry(v.list, r))];
    assert w[i + 1..] == [Vma(end + 1, v.end, v.list)] + vmas[i..][1..];
  }

  lemma StepAdd(vmas: seq<Vma>, i: nat, begin: int, end: int, r: Entry)
    requires i < |vmas| && begin == vmas[i].start <= end && vmas[i].end <= end
    ensures var v := vmas[i];
      Pending(vmas[i := Vma(begin, v.end, AddEntry(v.list, r))], i + 1, v.end + 1, end, r) == Pending(vmas, i, begin, end, r)
  {
    var w := vmas[i := Vma(begin, vmas[i].end, AddEntry(vmas[i].list, r))];
    assert w[..i + 1] == vmas[..i] + [w[i]] && w[i + 1..] == vmas[i..][1..];
  }

  lemma SplitFront(vmas: seq<Vma>, begin: int, end: int, r: Entry)
    requires vmas != [] && vmas[0].start < begin <= end
    ensures var v := vmas[0];
      InsertFrom(vmas, begin, end, r) ==
        [Vma(v.start, begin - 1, v.list)] + InsertFrom([Vma(begin, v.end, v.list)] + vmas[1..], begin, end, r)
  {
  }

  lemma LinkedAround(vmas: seq<Vma>, i: nat, u: Vma, v: Vma)
    requires i < |vmas|
    ensures Linked(vmas[i := u], i + 1, v)[..i + 1] == vmas[..i] + [u]
    ensures Linked(vmas[i := u], i + 1, v)[i + 1..] == [v] + vmas[i..][1..]
  {
  }

  lemma StepSplit(vmas: seq<Vma>, i: nat, begin: int, end: int, r: Entry)
    requires i < |vmas| && vmas[i].start < begin <= end
    ensures var v := vmas[i];
      Pending(Linked(vmas[i := Vma(v.start, begin - 1, v.list)], i + 1, Vma(begin, v.end, v.list)), i + 1, begin, end, r)
      == Pending(vmas, i, begin, end, r)
  {
    var v := vmas[i];
    SplitFront(vmas[i..], begin, end, r);
    LinkedAround(vmas, i, Vma(v.start, begin - 1, v.list), Vma(begin, v.end, v.list));
  }

  lemma PendingDone(vmas: seq<Vma>, i: nat, begin: int, end: int, r: Entry)
    requires i <= |vmas| && begin > end
    ensures Pending(vmas, i, begin, end, r) == vmas
  {
  }

  // ----- The database -----

  class Table {
    var vmas: seq<Vma>
    var index: T.Tree
    ghost var registered: set<Entry>

    ghost predicate Valid()
      reads this
    {
      Represents(vmas, registered) && Fitting(registered) && IndexAgrees(index, vmas)
    }

    constructor ()
      ensures Valid() && registered == {} && vmas == []
    {
      vmas := [];
      index := T.Empty;
      registered := {};
    }

    method Search(addr: int) returns (k: nat)
      requires Valid()
      ensures k == HolderOf(vmas, addr)
    {
      AreasByPosition(vmas, 0);
      SearchIsScan(index, vmas, addr);
      k := Found(vmas, T.Find(index, SearchOrder(vmas, addr)));
    }

    /** Link a new area in at position k and index it. */
    method Link(k: nat, v: Vma)
      requires k <= |vmas| && IndexAgrees(index, vmas)
      modifies this`vmas, this`index
      ensures vmas == Linked(old(vmas), k, v) && IndexAgrees(index, vmas)
    {
      LinkAgrees(index, vmas, k, v);
      index := T.Insert(index, v.start).tree;
      vmas := vmas[..k] + [v] + vmas[k..];
    }

    /** Take the area at position k off the list and out of the index. */
    method Unlink(k: nat)
      requires k < |vmas| && IndexAgrees(index, vmas) && Ascending(vmas)
      modifies this`vmas, this`index
      ensures vmas == old(vmas[..k] + vmas[k + 1..]) && IndexAgrees(index, vmas) && Ascending(vmas)
    {
      UnlinkAgrees(index, vmas, k);
      index := T.Delete(index, T.ByKey(vmas[k].start)).tree;
      vmas := vmas[..k] + vmas[k + 1..];
    }

    /** Change an area in place; its first page, the key of the index, stays. */
    method Relabel(k: nat, end: int, list: seq<Entry>)
      requires k < |vmas| && IndexAgrees(index, vmas)
      modifies this`vmas
      ensures vmas == old(vmas[k := Vma(vmas[k].start, end, list)]) && IndexAgrees(index, vmas)
      ensures old(Ascending(vmas)) ==> Ascending(vmas)
    {
      RelabelAgrees(index, vmas, k, Vma(vmas[k].start, end, list));
      vmas := vmas[k := Vma(vmas[k].start, end, list)];
    }

    method Insert(r: Entry) returns (code: int)
      requires Valid() && r !in registered && Fitting(registered + {r})
      modifies this
      ensures Valid() && registered == old(registered) + {r} && code == 0
      ensures vmas == Inserted(old(vmas), r)
    {
      var begin, end := r.Begin(), r.End();
      AreasByPosition(vmas, 0);
      ClosestFinds(index, vmas, begin);
      InsertedFromClosest(vmas, begin, end, r);
      InsertRepresents(vmas, registered, r);
      var i: nat := Found(vmas, T.Find(index, ClosestOrder(vmas, begin)));
      while begin <= end
        invariant i <= |vmas| && IndexAgrees(index, vmas) && registered == old(registered)
        invariant Pending(vmas, i, begin, end, r) == Inserted(old(vmas), r)
        decreases if begin <= end then |vmas| - i else 0, end + 1 - begin, i < |vmas| && vmas[i].start < begin
      {
        if i == |vmas| {
          StepAppend(vmas, begin, end, r, 0);
          Link(i, Vma(begin, end, [r]));
          begin := end + 1;
          i := 0;
        } else if vmas[i].start > begin {
          begin := FillGap(i, begin, end, r);
          i := i + 1;
        } else if vmas[i].start == begin {
          begin := AddTo(i, begin, end, r);
          i := i + 1;
        } else {
          Split(i, begin, end, r);
          i := i + 1;
        }
      }
      PendingDone(vmas, i, begin, end, r);
      registered := registered + {r};
      return 0;
    }

    /** Fill the gap in front of area i. */
    method FillGap(i: nat, begin: int, end: int, r: Entry) returns (begin': int)
      requires i < |vmas| && begin <= end && begin < vmas[i].start && IndexAgrees(index, vmas)
      modifies this`vmas, this`index
      ensures |vmas| == old(|vmas|) + 1 && IndexAgrees(index, vmas) && begin' > begin
      ensures Pending(vmas, i + 1, begin', end, r) == old(Pending(vmas, i, begin, end, r))
    {
      StepFill(vmas, i, begin, end, r);
      begin' := if vmas[i].start <= end then vmas[i].start else end + 1;
      Link(i, Vma(begin, begin' - 1, [r]));
    }

    /** Add the region to area i, which starts where the range does; cut the area if the range ends inside it. */
    method AddTo(i: nat, begin: int, end: int, r: Entry) returns (begin': int)
      requires i < |vmas| && begin <= end && begin == vmas[i].start && IndexAgrees(index, vmas)
      modifies this`vmas, this`index
      ensures old(|vmas|) <= |vmas| <= old(|vmas|) + 1 && IndexAgrees(index, vmas)
      ensures |vmas| > old(|vmas|) ==> begin' > begin
      ensures Pending(vmas, i + 1, begin', end, r) == old(Pending(vmas, i, begin, end, r))
    {
      var v := vmas[i];
      if v.end > end {
        StepCut(vmas, i, begin, end, r);
        Relabel(i, end, AddEntry(v.list, r));
        Link(i + 1, Vma(end + 1, v.end, v.list));
        begin' := end + 1;
      } else {
        StepAdd(vmas, i, begin, end, r);
        Relabel(i, v.end, AddEntry(v.list, r));
        begin' := v.end + 1;
      }
    }

    /** Split area i in front of the range. */
    method Split(i: nat, begin: int, ghost end: int, ghost r: Entry)
      requires i < |vmas| && begin <= end && vmas[i].start < begin && IndexAgrees(index, vmas)
      modifies this`vmas, this`index
      ensures |vmas| == old(|vmas|) + 1 && IndexAgrees(index, vmas) && vmas[i + 1].start == begin
      ensures Pending(vmas, i + 1, begin, end, r) == old(Pending(vmas, i, begin, end, r))
    {
      var v := vmas[i];
      StepSplit(vmas, i, begin, end, r);
      Relabel(i, begin - 1, v.list);
      Link(i + 1, Vma(begin, v.end, v.list));
    }

    /** Swallow the area at k into its predecessor, if they touch and list the same regions. */
    method SwallowedByPrev(k: nat) returns (k': nat)
      requires k < |vmas| && IndexAgrees(index, vmas) && Ascending(vmas)
      modifies this`vmas, this`index
      ensures IndexAgrees(index, vmas) && Ascending(vmas) && Cursor(vmas, k') == old(MergePrev(vmas, k))
    {
      k' := k;
      if k > 0 && vmas[k].start == vmas[k - 1].end + 1 && vmas[k].list == vmas[k - 1].list {
        Relabel(k - 1, vmas[k].end, vmas[k - 1].list);
        Unlink(k);
        k' := k - 1;
        assert vmas == old(MergePrev(vmas, k).w);
      }
    }

    /** Swallow the successor of the area at k, if they touch and list the same regions. */
    method SwallowNext(k: nat)
      requires k < |vmas| && IndexAgrees(index, vmas) && Ascending(vmas)
      modifies this`vmas, this`index
      ensures IndexAgrees(index, vmas) && Ascending(vmas) && Cursor(vmas, k) == old(MergeNext(vmas, k))
    {
      if k + 1 < |vmas| && vmas[k].end + 1 == vmas[k + 1].start && vmas[k].list == vmas[k + 1].list {
        Relabel(k, vmas[k + 1].end, vmas[k].list);
        Unlink(k + 1);
        assert vmas == old(MergeNext(vmas, k).w);
      }
    }

    /** Merge the area at k with touching neighbours of the same list until nothing merges any more. */
    method Merge(k: nat) returns (k': nat)
      requires k < |vmas| && IndexAgrees(index, vmas) && Ascending(vmas)
      modifies this`vmas, this`index
      ensures IndexAgrees(index, vmas) && Ascending(vmas) && Cursor(vmas, k') == old(MergeAll(vmas, k))
    {
      k' := k;
      var merged := true;
      while merged
        invariant k' < |vmas| && IndexAgrees(index, vmas) && Ascending(vmas)
        invariant old(MergeAll(vmas, k)) == if merged then MergeAll(vmas, k') else Cursor(vmas, k')
        decreases |vmas|, merged
      {
        var before := |vmas|;
        k' := SwallowedByPrev(k');
        SwallowNext(k');
        merged := |vmas| < before;
      }
    }

    /** Take a region out of every area of its range; -1 when no registered region covers its first page. */
    method Remove(r: Entry) returns (code: int)
      requires Valid() && r.Fits()
      modifies this
      ensures Valid() && registered == old(registered) - {r}
      ensures vmas == Removed(old(vmas), r)
      ensures code == if old(HolderOf(vmas, r.Begin()) == |vmas|) then -1 else 0
    {
      RemoveRepresents(vmas, registered, r);
      var k := Search(r.Begin());
      if k == |vmas| {
        registered := registered - {r};
        return -1;
      }
      AreasByPosition(vmas, 0);
      RemoveRounds(k, r);
      registered := registered - {r};
      return 0;
    }

    /** The loop of a removal, from position k on. */
    method RemoveRounds(start: nat, r: Entry)
      requires start <= |vmas| && IndexAgrees(index, vmas) && Ascending(vmas)
      modifies this`vmas, this`index
      ensures vmas == old(RemoveFrom(vmas, start, r.End(), r)) && IndexAgrees(index, vmas)
    {
      var k: nat := start;
      while k < |vmas| && vmas[k].start <= r.End()
        invariant k <= |vmas| && IndexAgrees(index, vmas) && Ascending(vmas)
        invariant RemoveFrom(vmas, k, r.End(), r) == old(RemoveFrom(vmas, start, r.End(), r))
        decreases |vmas| - k
      {
        k := RemoveRound(k, r);
      }
    }

    method RemoveRound(k: nat, r: Entry) returns (k': nat)
      requires k < |vmas| && IndexAgrees(index, vmas) && Ascending(vmas)
      modifies this`vmas, this`index
      ensures IndexAgrees(index, vmas) && Ascending(vmas) && Cursor(vmas, k') == old(RemoveStep(vmas, k, r))
    {
      Relabel(k, vmas[k].end, RemoveEntry(vmas[k].list, r));
      if vmas[k].list == [] {
        Unlink(k);
        k' := k;
        assert vmas == old(vmas[..k] + vmas[k + 1..]);
      } else {
        k' := Merge(k);
        k' := k' + 1;
      }
    }

    /** A registered region that covers every page from begin to end, if there is one. */
    method Lookup(begin: int, end: int) returns (e: Option<Entry>)
      requires Valid() && begin <= end
      ensures var list := Cover(vmas, begin); e == if list != [] && list[0].End() >= end then Some(list[0]) else None
      ensures e.Some? ==> e.value in registered && e.value.Covers(begin) && e.value.Covers(end)
      ensures e.None? ==> !exists x :: x in registered && x.Covers(begin) && x.Covers(end)
    {
      LookupComplete(vmas, registered, begin, end);
      var k := Search(begin);
      HolderOfPage(vmas, begin);
      AreasByPosition(vmas, 0);
      if k == |vmas| { return None; }
      CoverAt(vmas, 0, k, begin);
      if vmas[k].list[0].End() >= end { return Some(vmas[k].list[0]); }
      return None;
    }
  }
}
