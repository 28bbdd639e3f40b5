/** AVL trees as values: the rotations, insertion and deletion that `AvlNodes` performs in place, and what they
    guarantee.  A node stores its balance; `Height` is never stored. */
module AvlTree {

  datatype Tree = Empty | Node(left: Tree, key: int, bal: int, right: Tree)

  datatype Direction = Left | Right

  function Opposite(dir: Direction): Direction {
    if dir.Left? then Right else Left
  }

  /** The node whose subtree towards `dir` is `near`. */
  function Make(dir: Direction, near: Tree, key: int, bal: int, far: Tree): Tree {
    if dir.Left? then Node(near, key, bal, far) else Node(far, key, bal, near)
  }

  function Sub(t: Tree, dir: Direction): Tree
    requires t.Node?
  {
    if dir.Left? then t.left else t.right
  }

  // ----- Rotations -----

  function RotateOnce(t: Tree, dir: Direction): Tree
    requires t.Node? && Sub(t, Opposite(dir)).Node?
  {
    var up := Sub(t, Opposite(dir));
    var bal := if dir.Left? then up.bal - 1 else up.bal + 1;
    Make(dir, Make(dir, Sub(t, dir), t.key, -bal, Sub(up, dir)), up.key, bal, Sub(up, Opposite(dir)))
  }

  function Max(a: int, b: int): int {
    if a > b then a else b
  }

  function Min(a: int, b: int): int {
    if a < b then a else b
  }

  function RotateTwice(t: Tree, dir: Direction): Tree
    requires t.Node? && Sub(t, Opposite(dir)).Node? && Sub(Sub(t, Opposite(dir)), dir).Node?
  {
    var child := Sub(t, Opposite(dir));
    var up := Sub(child, dir);
    var leftBal, rightBal := -Max(up.bal, 0), -Min(up.bal, 0);
    Make(dir,
         Make(dir, Sub(t, dir), t.key, if dir.Left? then leftBal else rightBal, Sub(up, dir)),
         up.key, 0,
         Make(dir, Sub(up, Opposite(dir)), child.key, if dir.Left? then rightBal else leftBal, Sub(child, Opposite(dir))))
  }

  /** A tree and whether its height differs from the tree it came from: 1 if so, 0 if not. */
  datatype Changed = Changed(tree: Tree, height: int)

  /** Can the balance factor of the root be trusted far enough to rotate? */
  ghost predicate CanBalance(t: Tree) {
    t.Node?
    && (t.bal < -1 ==> t.left.Node? && (t.left.bal == 1 ==> t.left.right.Node?))
    && (t.bal > 1 ==> t.right.Node? && (t.right.bal == -1 ==> t.right.left.Node?))
  }

  function Balance(t: Tree): Changed
    requires CanBalance(t)
  {
    if t.bal < -1 then
      if t.left.bal == 1 then Changed(RotateTwice(t, Right), 1)
      else Changed(RotateOnce(t, Right), if t.left.bal == 0 then 0 else 1)
    else if t.bal > 1 then
      if t.right.bal == -1 then Changed(RotateTwice(t, Left), 1)
      else Changed(RotateOnce(t, Left), if t.right.bal == 0 then 0 else 1)
    else
      Changed(t, 0)
  }

  // ----- The AVL invariant -----

  function Height(t: Tree): nat {
    if t.Empty? then 0 else 1 + Max(Height(t.left), Height(t.right))
  }

  /** Stored balances are right height minus left height, and never exceed one in size. */
  predicate Balanced(t: Tree) {
    t.Node? ==>
      && Balanced(t.left) && Balanced(t.right)
      && t.bal == Height(t.right) - Height(t.left)
      && -1 <= t.bal <= 1
  }

  /** The subtrees are AVL trees and the stored balance of the root is right, but may be off by two. */
  ghost predicate NearlyBalanced(t: Tree) {
    && t.Node?
    && Balanced(t.left) && Balanced(t.right)
    && t.bal == Height(t.right) - Height(t.left)
    && -2 <= t.bal <= 2
  }

  ghost function Keys(t: Tree): set<int> {
    if t.Empty? then {} else Keys(t.left) + {t.key} + Keys(t.right)
  }

  ghost predicate Ordered(t: Tree) {
    t.Node? ==>
      && Ordered(t.left) && Ordered(t.right)
      && (forall k :: k in Keys(t.left) ==> k < t.key)
      && (forall k :: k in Keys(t.right) ==> t.key < k)
  }

  ghost predicate SameKeys(t: Tree, u: Tree) {
    Keys(t) == Keys(u) && (Ordered(t) <==> Ordered(u))
  }

  /** The one step behind every rotation: the balances do not matter, the order of the parts does. */
  lemma Reassociate(a: Tree, x: int, b: Tree, y: int, c: Tree, b1: int, b2: int, b3: int, b4: int)
    ensures SameKeys(Node(a, x, b1, Node(b, y, b2, c)), Node(Node(a, x, b3, b), y, b4, c))
  {
    var t, u := Node(a, x, b1, Node(b, y, b2, c)), Node(Node(a, x, b3, b), y, b4, c);
    assert Keys(t.right) == Keys(b) + {y} + Keys(c);
    assert Keys(u.left) == Keys(a) + {x} + Keys(b);
    assert y in Keys(t.right) && x in Keys(u.left);
  }

  lemma SameSubtree(t: Tree, dir: Direction, sub: Tree)
    requires t.Node? && SameKeys(Sub(t, dir), sub)
    ensures SameKeys(t, Make(dir, sub, t.key, t.bal, Sub(t, Opposite(dir))))
  {
  }

  lemma NearlyCanBalance(t: Tree)
    requires NearlyBalanced(t)
    ensures CanBalance(t)
  {
  }

  lemma RotateOnceRestores(t: Tree, dir: Direction)
    requires NearlyBalanced(t) && Sub(t, Opposite(dir)).Node?
    requires if dir.Left? then t.bal == 2 && t.right.bal != -1 else t.bal == -2 && t.left.bal != 1
    ensures Balanced(RotateOnce(t, dir))
    ensures Height(RotateOnce(t, dir)) == Height(t) - (if Sub(t, Opposite(dir)).bal == 0 then 0 else 1)
  {
    var up := Sub(t, Opposite(dir));
    assert Balanced(up);
    var low := Make(dir, Sub(t, dir), t.key, -RotateOnce(t, dir).bal, Sub(up, dir));
    assert Balanced(low);
  }

  lemma RotateTwiceRestores(t: Tree, dir: Direction)
    requires NearlyBalanced(t) && Sub(t, Opposite(dir)).Node? && Sub(Sub(t, Opposite(dir)), dir).Node?
    requires if dir.Left? then t.bal == 2 && t.right.bal == -1 else t.bal == -2 && t.left.bal == 1
    ensures Balanced(RotateTwice(t, dir))
    ensures Height(RotateTwice(t, dir)) == Height(t) - 1
  {
    var child := Sub(t, Opposite(dir));
    assert Balanced(child);
    var up := Sub(child, dir);
    assert Balanced(up);
    var r := RotateTwice(t, dir);
    assert Height(r.left) == Height(t) - 2 && Height(r.right) == Height(t) - 2;
    assert Balanced(r.left) && Balanced(r.right);
  }

  /** `Balance` repairs an imbalance of two and reports exactly whether the height changed. */
  lemma BalanceRestores(t: Tree)
    requires NearlyBalanced(t) && CanBalance(t)
    ensures Balanced(Balance(t).tree)
    ensures Height(Balance(t).tree) == Height(t) - Balance(t).height
    ensures 0 <= Balance(t).height <= 1
  {
    if t.bal < -1 {
      if t.left.bal == 1 { RotateTwiceRestores(t, Right); } else { RotateOnceRestores(t, Right); }
    } else if t.bal > 1 {
      if t.right.bal == -1 { RotateTwiceRestores(t, Left); } else { RotateOnceRestores(t, Left); }
    }
  }

  lemma RotateOnceKeepsOrder(t: Tree, dir: Direction)
    requires t.Node? && Sub(t, Opposite(dir)).Node?
    ensures SameKeys(t, RotateOnce(t, dir))
  {
    var up, r := Sub(t, Opposite(dir)), RotateOnce(t, dir);
    if dir.Left? {
      Reassociate(t.left, t.key, up.left, up.key, up.right, t.bal, up.bal, r.left.bal, r.bal);
    } else {
      Reassociate(up.left, up.key, up.right, t.key, t.right, r.bal, r.right.bal, up.bal, t.bal);
    }
  }

  /** A double rotation is two single ones, except for the balances it writes. */
  lemma RotateTwiceKeepsOrder(t: Tree, dir: Direction)
    requires t.Node? && Sub(t, Opposite(dir)).Node? && Sub(Sub(t, Opposite(dir)), dir).Node?
    ensures SameKeys(t, RotateTwice(t, dir))
  {
    var child, r := Sub(t, Opposite(dir)), RotateTwice(t, dir);
    var up := Sub(child, dir);
    if dir.Left? {
      var mid := Node(up.left, up.key, 0, r.right);
      Reassociate(up.left, up.key, up.right, child.key, child.right, 0, r.right.bal, up.bal, child.bal);
      SameSubtree(t, Right, mid);
      Reassociate(t.left, t.key, up.left, up.key, r.right, t.bal, 0, r.left.bal, 0);
    } else {
      var mid := Node(r.left, up.key, 0, up.right);
      Reassociate(child.left, child.key, up.left, up.key, up.right, child.bal, up.bal, r.left.bal, 0);
      SameSubtree(t, Left, mid);
      Reassociate(r.left, up.key, up.right, t.key, t.right, 0, r.right.bal, 0, t.bal);
    }
  }

  lemma BalanceKeepsOrder(t: Tree)
    requires CanBalance(t)
    ensures SameKeys(t, Balance(t).tree)
  {
    if t.bal < -1 {
      if t.left.bal == 1 { RotateTwiceKeepsOrder(t, Right); } else { RotateOnceKeepsOrder(t, Right); }
    } else if t.bal > 1 {
      if t.right.bal == -1 { RotateTwiceKeepsOrder(t, Left); } else { RotateOnceKeepsOrder(t, Left); }
    }
  }

  // ----- Insertion -----

  /** The tree after an insertion, by how much its height grew, and whether the key was already there. */
  datatype Inserted = Inserted(tree: Tree, increase: int, duplicate: bool)

  function Insert(t: Tree, key: int): (r: Inserted)
    requires Balanced(t)
    ensures Balanced(r.tree) && 0 <= r.increase <= 1
    ensures Height(r.tree) == Height(t) + r.increase
    ensures r.duplicate ==> r.tree == t
  {
    if t.Empty? then Inserted(Node(Empty, key, 0, Empty), 1, false)
    else if key == t.key then Inserted(t, 0, true)
    else
      var sub := Insert(if key < t.key then t.left else t.right, key);
      if sub.duplicate then Inserted(t, 0, true) else AfterInsert(t, key < t.key, sub.tree, sub.increase)
  }

  /** The node after the subtree on one side was replaced by one taller by `increase`. */
  function Grown(t: Tree, onLeft: bool, sub: Tree, increase: int): Tree
    requires t.Node?
  {
    if onLeft then Node(sub, t.key, t.bal - increase, t.right) else Node(t.left, t.key, t.bal + increase, sub)
  }

  ghost predicate Replaces(t: Tree, onLeft: bool, sub: Tree, increase: int) {
    && t.Node? && Balanced(t) && Balanced(sub)
    && Height(sub) == Height(if onLeft then t.left else t.right) + increase
  }

  lemma GrownNearlyBalanced(t: Tree, onLeft: bool, sub: Tree, increase: int)
    requires Replaces(t, onLeft, sub, increase) && -1 <= increase <= 1
    ensures NearlyBalanced(Grown(t, onLeft, sub, increase)) && CanBalance(Grown(t, onLeft, sub, increase))
  {
    NearlyCanBalance(Grown(t, onLeft, sub, increase));
  }

  /** Update the balance at a node whose subtree grew by `increase`, and rotate if that is too much. */
  function AfterInsert(t: Tree, onLeft: bool, sub: Tree, increase: int): (r: Inserted)
    requires Replaces(t, onLeft, sub, increase) && 0 <= increase <= 1
    ensures Balanced(r.tree) && 0 <= r.increase <= 1 && !r.duplicate
    ensures Height(r.tree) == Height(t) + r.increase
  {
    var grown := Grown(t, onLeft, sub, increase);
    GrownNearlyBalanced(t, onLeft, sub, increase);
    if increase != 0 && grown.bal != 0 then
      BalanceRestores(grown);
      Inserted(Balance(grown).tree, 1 - Balance(grown).height, false)
    else Inserted(grown, 0, false)
  }

  /** Replacing one subtree by another with keys on the same side keeps the order. */
  lemma GrownKeys(t: Tree, onLeft: bool, sub: Tree, increase: int)
    requires t.Node? && Ordered(t) && Ordered(sub)
    requires forall k :: k in Keys(sub) ==> if onLeft then k < t.key else t.key < k
    ensures Ordered(Grown(t, onLeft, sub, increase))
    ensures Keys(Grown(t, onLeft, sub, increase)) == Keys(sub) + {t.key} + Keys(if onLeft then t.right else t.left)
  {
  }

  lemma AfterInsertKeys(t: Tree, onLeft: bool, sub: Tree, increase: int)
    requires Replaces(t, onLeft, sub, increase) && 0 <= increase <= 1
    ensures SameKeys(Grown(t, onLeft, sub, increase), AfterInsert(t, onLeft, sub, increase).tree)
  {
    GrownNearlyBalanced(t, onLeft, sub, increase);
    BalanceKeepsOrder(Grown(t, onLeft, sub, increase));
  }

  /** Insertion adds exactly the key, keeps the order, and reports a duplicate exactly when the key was there. */
  lemma {:induction false} InsertKeys(t: Tree, key: int)
    requires Balanced(t) && Ordered(t)
    ensures Ordered(Insert(t, key).tree)
    ensures Keys(Insert(t, key).tree) == Keys(t) + {key}
    ensures Insert(t, key).duplicate <==> key in Keys(t)
  {
    if t.Node? && key != t.key {
      var side := if key < t.key then t.left else t.right;
      InsertKeys(side, key);
      InsertedGrown(t, key);
      SpliceKeys(t, key, Insert(side, key).tree,
                 if Insert(side, key).duplicate then 0 else Insert(side, key).increase, Insert(t, key).tree);
    }
  }

  lemma InsertedGrown(t: Tree, key: int)
    requires t.Node? && Balanced(t) && key != t.key
    ensures var sub := Insert(if key < t.key then t.left else t.right, key); !sub.duplicate ==>
      && !Insert(t, key).duplicate
      && SameKeys(Grown(t, key < t.key, sub.tree, sub.increase), Insert(t, key).tree)
  {
    var sub := Insert(if key < t.key then t.left else t.right, key);
    if !sub.duplicate { AfterInsertKeys(t, key < t.key, sub.tree, sub.increase); }
  }

  /** What a key added to, or removed from, the subtree where it belongs does to the whole. */
  lemma SpliceKeys(t: Tree, key: int, sub: Tree, increase: int, r: Tree)
    requires t.Node? && Ordered(t) && Ordered(sub) && key != t.key
    requires SameKeys(Grown(t, key < t.key, sub, increase), r)
    ensures var side := if key < t.key then t.left else t.right;
      && (Keys(sub) == Keys(side) + {key} ==> Ordered(r) && Keys(r) == Keys(t) + {key})
      && (Keys(sub) == Keys(side) - {key} ==> Ordered(r) && Keys(r) == Keys(t) - {key})
  {
    var side := if key < t.key then t.left else t.right;
    if Keys(sub) == Keys(side) + {key} || Keys(sub) == Keys(side) - {key} {
      GrownKeys(t, key < t.key, sub, increase);
    }
  }

  // ----- Deletion -----

  /** What to delete: a key, or the smallest key (the comparison `avl_min`). */
  datatype Target = ByKey(key: int) | Smallest

  /** The tree after a deletion, by how much its height shrank, and the key deleted, if one was found. */
  datatype Deleted = Deleted(tree: Tree, decrease: int, found: bool)

  function Compare(target: Target, t: Tree): int
    requires t.Node?
  {
    match target {
      case ByKey(key) => key - t.key
      case Smallest => if t.left.Empty? then 0 else -1
    }
  }

  function SmallestKey(t: Tree): int
    requires t.Node?
  {
    if t.left.Empty? then t.key else SmallestKey(t.left)
  }

  function Delete(t: Tree, target: Target): (r: Deleted)
    requires Balanced(t)
    ensures Balanced(r.tree) && 0 <= r.decrease <= 1
    ensures Height(r.tree) == Height(t) - r.decrease
    ensures !r.found ==> r.tree == t
  {
    if t.Empty? then Deleted(t, 0, false)
    else if Compare(target, t) != 0 then
      var onLeft := Compare(target, t) < 0;
      var sub := Delete(if onLeft then t.left else t.right, target);
      if !sub.found then Deleted(t, 0, false) else AfterDelete(t, onLeft, sub.tree, sub.decrease)
    else if t.left.Empty? || t.right.Empty? then
      Deleted(if t.right.Empty? then t.left else t.right, 1, true)
    else
      // Two children: the successor's key moves up and the successor is deleted below.
      var sub := Delete(t.right, Smallest);
      AfterDelete(t.(key := SmallestKey(t.right)), false, sub.tree, sub.decrease)
  }

  /** Update the balance at a node whose subtree shrank by `decrease`, and rotate if that is too much. */
  function AfterDelete(t: Tree, onLeft: bool, sub: Tree, decrease: int): (r: Deleted)
    requires Replaces(t, onLeft, sub, -decrease) && 0 <= decrease <= 1
    ensures Balanced(r.tree) && 0 <= r.decrease <= 1 && r.found
    ensures Height(r.tree) == Height(t) - r.decrease
  {
    var shrunk := Grown(t, onLeft, sub, -decrease);
    GrownNearlyBalanced(t, onLeft, sub, -decrease);
    if decrease != 0 && shrunk.bal != 0 then
      BalanceRestores(shrunk);
      Deleted(Balance(shrunk).tree, Balance(shrunk).height, true)
    else Deleted(shrunk, decrease, true)
  }

  lemma AfterDeleteKeys(t: Tree, onLeft: bool, sub: Tree, decrease: int)
    requires Replaces(t, onLeft, sub, -decrease) && 0 <= decrease <= 1
    ensures SameKeys(Grown(t, onLeft, sub, -decrease), AfterDelete(t, onLeft, sub, decrease).tree)
  {
    GrownNearlyBalanced(t, onLeft, sub, -decrease);
    BalanceKeepsOrder(Grown(t, onLeft, sub, -decrease));
  }

  lemma {:induction false} SmallestIsSmallest(t: Tree)
    requires t.Node? && Ordered(t)
    ensures SmallestKey(t) in Keys(t) && forall x :: x in Keys(t) ==> SmallestKey(t) <= x
  {
    if t.left.Node? { SmallestIsSmallest(t.left); }
  }

  /** Deleting with `avl_min` removes exactly the smallest key. */
  lemma {:induction false} DeleteSmallest(t: Tree)
    requires t.Node? && Balanced(t) && Ordered(t)
    ensures Delete(t, Smallest).found && Ordered(Delete(t, Smallest).tree)
    ensures Keys(Delete(t, Smallest).tree) == Keys(t) - {SmallestKey(t)}
  {
    SmallestIsSmallest(t);
    if t.left.Node? {
      DeleteSmallest(t.left);
      SmallestIsSmallest(t.left);
      var sub := Delete(t.left, Smallest);
      AfterDeleteKeys(t, true, sub.tree, sub.decrease);
      GrownKeys(t, true, sub.tree, -sub.decrease);
    }
  }

  /** Deletion removes exactly the key, keeps the order, and finds the key exactly when it is there. */
  lemma {:induction false} DeleteKey(t: Tree, key: int)
    requires Balanced(t) && Ordered(t)
    ensures Ordered(Delete(t, ByKey(key)).tree)
    ensures Keys(Delete(t, ByKey(key)).tree) == Keys(t) - {key}
    ensures Delete(t, ByKey(key)).found <==> key in Keys(t)
  {
    if t.Node? {
      if key != t.key {
        var side := if key < t.key then t.left else t.right;
        DeleteKey(side, key);
        DeletedGrown(t, key);
        SpliceKeys(t, key, Delete(side, ByKey(key)).tree, -Delete(side, ByKey(key)).decrease, Delete(t, ByKey(key)).tree);
      } else if t.left.Node? && t.right.Node? {
        DeleteTwoChildren(t);
      }
    }
  }

  lemma DeletedGrown(t: Tree, key: int)
    requires t.Node? && Balanced(t) && key != t.key
    ensures var sub := Delete(if key < t.key then t.left else t.right, ByKey(key)); sub.found ==>
      && Delete(t, ByKey(key)).found
      && SameKeys(Grown(t, key < t.key, sub.tree, -sub.decrease), Delete(t, ByKey(key)).tree)
  {
    var sub := Delete(if key < t.key then t.left else t.right, ByKey(key));
    if sub.found { AfterDeleteKeys(t, key < t.key, sub.tree, sub.decrease); }
  }

  lemma DeleteTwoChildren(t: Tree)
    requires t.Node? && t.left.Node? && t.right.Node? && Balanced(t) && Ordered(t)
    ensures Delete(t, ByKey(t.key)).found && Ordered(Delete(t, ByKey(t.key)).tree)
    ensures Keys(Delete(t, ByKey(t.key)).tree) == Keys(t) - {t.key}
  {
    TwoChildrenGrown(t);
    var sub := SuccessorLeaves(t.right);
    SuccessorMovesUp(t, SmallestKey(t.right), sub.tree, -sub.decrease, Delete(t, ByKey(t.key)).tree);
  }

  lemma SuccessorLeaves(t: Tree) returns (sub: Deleted)
    requires t.Node? && Balanced(t) && Ordered(t)
    ensures sub == Delete(t, Smallest) && Ordered(sub.tree) && Keys(sub.tree) == Keys(t) - {SmallestKey(t)}
    ensures SmallestKey(t) in Keys(t) && forall k :: k in Keys(sub.tree) ==> SmallestKey(t) < k
  {
    sub := Delete(t, Smallest);
    DeleteSmallest(t);
    SmallestIsSmallest(t);
  }

  lemma TwoChildrenGrown(t: Tree)
    requires t.Node? && t.left.Node? && t.right.Node? && Balanced(t)
    ensures var next, sub := SmallestKey(t.right), Delete(t.right, Smallest);
      && Delete(t, ByKey(t.key)).found
      && SameKeys(Grown(t.(key := next), false, sub.tree, -sub.decrease), Delete(t, ByKey(t.key)).tree)
  {
    var next, sub := SmallestKey(t.right), Delete(t.right, Smallest);
    AfterDeleteKeys(t.(key := next), false, sub.tree, sub.decrease);
  }

  lemma SuccessorMovesUp(t: Tree, next: int, rest: Tree, increase: int, r: Tree)
    requires t.Node? && Ordered(t) && Ordered(rest)
    requires next in Keys(t.right) && Keys(rest) == Keys(t.right) - {next}
    requires forall k :: k in Keys(rest) ==> next < k
    requires SameKeys(Grown(t.(key := next), false, rest, increase), r)
    ensures Ordered(r) && Keys(r) == Keys(t) - {t.key}
  {
    assert t.key !in Keys(t.left) && t.key !in Keys(t.right);
    assert Ordered(Grown(t.(key := next), false, rest, increase));
  }

  // ----- Size -----

  function Count(t: Tree): nat {
    if t.Empty? then 0 else Count(t.left) + 1 + Count(t.right)
  }

  function Fibonacci(n: nat): nat {
    if n < 2 then n else Fibonacci(n - 1) + Fibonacci(n - 2)
  }

  lemma {:induction false} FibonacciGrows(m: nat, n: nat)
    requires m <= n
    ensures Fibonacci(m) <= Fibonacci(n)
    decreases n - m
  {
    if m < n {
      FibonacciGrows(m + 1, n);
      assert Fibonacci(m) <= Fibonacci(m + 1);
    }
  }

  /** Every tree the operations build is logarithmically flat: height h needs at least Fibonacci(h + 2) - 1 nodes. */
  lemma {:induction false} AtLeastFibonacci(t: Tree)
    requires Balanced(t)
    ensures Count(t) + 1 >= Fibonacci(Height(t) + 2)
  {
    if t.Node? {
      AtLeastFibonacci(t.left);
      AtLeastFibonacci(t.right);
      FibonacciOfNode(Height(t.left), Height(t.right));
    }
  }

  lemma FibonacciOfNode(l: nat, r: nat)
    requires -1 <= r - l <= 1
    ensures Fibonacci(l + 2) + Fibonacci(r + 2) >= Fibonacci(Max(l, r) + 3)
  {
    var low, high := Min(l, r), Max(l, r);
    FibonacciGrows(high + 1, low + 2);
    assert Fibonacci(high + 3) == Fibonacci(high + 2) + Fibonacci(high + 1);
  }

  // ----- Search -----

  /** Walk down by a three-way comparison, negative meaning left, until it answers zero. */
  function Find(t: Tree, compare: int -> int): Tree {
    if t.Empty? || compare(t.key) == 0 then t
    else Find(if compare(t.key) < 0 then t.left else t.right, compare)
  }

  /** The comparison sends every key below a match left of it and every key above right of it. */
  ghost predicate Guides(compare: int -> int, keys: set<int>) {
    forall a, b :: a in keys && b in keys && a < b ==> !(compare(a) < 0 && compare(b) >= 0) && !(compare(b) > 0 && compare(a) <= 0)
  }

  /** The tree search finds a matching key exactly when a scan of all keys would. */
  lemma {:induction false} FindIsScan(t: Tree, compare: int -> int)
    requires Ordered(t) && Guides(compare, Keys(t))
    ensures Find(t, compare).Empty? <==> forall k :: k in Keys(t) ==> compare(k) != 0
    ensures Find(t, compare).Node? ==>
      Find(t, compare).key in Keys(t) && compare(Find(t, compare).key) == 0
  {
    if t.Node? {
      if compare(t.key) != 0 {
        FindIsScan(if compare(t.key) < 0 then t.left else t.right, compare);
      }
    }
  }
}
