/** The AVL tree in memory: nodes whose links, balances and data are rewritten in place.  Each method is proved to
    leave nodes that spell out the tree which the function of the same name in `AvlTree` computes. */
module AvlNodes {
  import opened T = AvlTree

  class AvlNode {
    var data: int
    var bal: int
    var left: AvlNode?
    var right: AvlNode?

    constructor (data: int)
      ensures this.data == data && bal == 0 && left == null && right == null
    {
      this.data := data;
      bal := 0;
      left, right := null, null;
    }

    function Subtree(dir: Direction): AvlNode?
      reads this
    {
      if dir.Left? then left else right
    }
  }

  /** Which node stands where, apart from what the nodes contain. */
  datatype Layout = Nil | At(left: Layout, node: AvlNode, right: Layout) {
    ghost function Nodes(): set<AvlNode> {
      if Nil? then {} else left.Nodes() + {node} + right.Nodes()
    }

    ghost predicate Distinct() {
      At? ==> left.Distinct() && right.Distinct() && left.Nodes() !! right.Nodes()
              && node !in left.Nodes() && node !in right.Nodes()
    }

    ghost function Root(): AvlNode? {
      if Nil? then null else node
    }

    ghost function Side(dir: Direction): Layout
      requires At?
    {
      if dir.Left? then left else right
    }

    /** The links in memory follow the layout. */
    ghost predicate Linked()
      reads Nodes()
    {
      At? ==> node.left == left.Root() && node.right == right.Root() && left.Linked() && right.Linked()
    }

    /** The tree the nodes spell out. */
    ghost function View(): Tree
      reads Nodes()
    {
      if Nil? then Empty else Node(left.View(), node.data, node.bal, right.View())
    }

    ghost predicate Holds(root: AvlNode?, t: Tree)
      reads Nodes()
    {
      Root() == root && Distinct() && Linked() && View() == t
    }
  }

  ghost function Place(dir: Direction, near: Layout, node: AvlNode, far: Layout): Layout {
    if dir.Left? then At(near, node, far) else At(far, node, near)
  }

  /** Looking one level down a layout that is in place. */
  lemma SideHolds(s: Layout, t: Tree, dir: Direction)
    requires s.Holds(s.Root(), t) && t.Node?
    ensures s.At? && s.Side(dir).Holds(s.node.Subtree(dir), Sub(t, dir))
    ensures s.Side(dir).Nodes() <= s.Nodes() && s.node !in s.Side(dir).Nodes()
    ensures s.Nodes() == s.Side(dir).Nodes() + {s.node} + s.Side(Opposite(dir)).Nodes()
    ensures s.Side(dir).Nodes() !! s.Side(Opposite(dir)).Nodes()
  {
  }

  lemma PlaceHolds(dir: Direction, near: Layout, n: AvlNode, far: Layout, t: Tree)
    requires t.Node? && near.Holds(n.Subtree(dir), Sub(t, dir)) && far.Holds(n.Subtree(Opposite(dir)), Sub(t, Opposite(dir)))
    requires n.data == t.key && n.bal == t.bal
    requires near.Nodes() !! far.Nodes() && n !in near.Nodes() && n !in far.Nodes()
    ensures Place(dir, near, n, far).Holds(n, t)
    ensures Place(dir, near, n, far).Nodes() == near.Nodes() + {n} + far.Nodes()
  {
  }

  lemma Assemble(dir: Direction, near: Layout, n: AvlNode, far: Layout, t: Tree) returns (s: Layout)
    requires t.Node? && near.Holds(n.Subtree(dir), Sub(t, dir)) && far.Holds(n.Subtree(Opposite(dir)), Sub(t, Opposite(dir)))
    requires n.data == t.key && n.bal == t.bal
    requires near.Nodes() !! far.Nodes() && n !in near.Nodes() && n !in far.Nodes()
    ensures s.Holds(n, t) && s.Nodes() == near.Nodes() + {n} + far.Nodes()
  {
    PlaceHolds(dir, near, n, far, t);
    s := Place(dir, near, n, far);
  }

  /** The new root exchanges its subtree for its parent. */
  method SwingLeft(low: AvlNode, up: AvlNode, ghost a: Layout, ghost b: Layout, ghost c: Layout,
                   ghost ta: Tree, ghost tb: Tree, ghost tc: Tree)
    requires low != up && {low, up} !! a.Nodes() + b.Nodes() + c.Nodes()
    requires a.Holds(low.left, ta) && b.Holds(up.left, tb) && c.Holds(up.right, tc)
    modifies low`right, low`bal, up`left, up`bal
    ensures up.left == low && up.bal == old(up.bal) - 1 && low.bal == -up.bal
    ensures a.Holds(low.left, ta) && b.Holds(low.right, tb) && c.Holds(up.right, tc)
  {
    low.right := up.left;
    up.left := low;
    up.bal := up.bal - 1;
    low.bal := -up.bal;
  }

  method SwingRight(low: AvlNode, up: AvlNode, ghost a: Layout, ghost b: Layout, ghost c: Layout,
                   ghost ta: Tree, ghost tb: Tree, ghost tc: Tree)
    requires low != up && {low, up} !! a.Nodes() + b.Nodes() + c.Nodes()
    requires a.Holds(low.right, ta) && b.Holds(up.right, tb) && c.Holds(up.left, tc)
    modifies low`left, low`bal, up`right, up`bal
    ensures up.right == low && up.bal == old(up.bal) + 1 && low.bal == -up.bal
    ensures a.Holds(low.right, ta) && b.Holds(low.left, tb) && c.Holds(up.left, tc)
  {
    low.left := up.right;
    up.right := low;
    up.bal := up.bal + 1;
    low.bal := -up.bal;
  }

  method RotateOnce(root: AvlNode, dir: Direction, ghost s: Layout, ghost t: Tree)
    returns (newRoot: AvlNode, heightKept: bool, ghost s': Layout)
    requires s.Holds(root, t) && Sub(t, Opposite(dir)).Node?
    modifies s.Nodes()
    ensures s'.Holds(newRoot, T.RotateOnce(t, dir)) && s'.Nodes() == s.Nodes()
    ensures heightKept == (Sub(t, Opposite(dir)).bal == 0)
  {
    SideHolds(s, t, dir);
    SideHolds(s, t, Opposite(dir));
    ghost var up, r := s.Side(Opposite(dir)), T.RotateOnce(t, dir);
    SideHolds(up, Sub(t, Opposite(dir)), dir);
    SideHolds(up, Sub(t, Opposite(dir)), Opposite(dir));
    newRoot := root.Subtree(Opposite(dir));
    heightKept := newRoot.bal == 0;
    if dir.Left? {
      SwingLeft(root, newRoot, s.left, up.left, up.right, t.left, t.right.left, t.right.right);
    } else {
      SwingRight(root, newRoot, s.right, up.right, up.left, t.right, t.left.right, t.left.left);
    }
    s' := Assemble(dir, s.Side(dir), root, up.Side(dir), Sub(r, dir));
    s' := Assemble(dir, s', newRoot, up.Side(Opposite(dir)), r);
  }

  /** The four subtrees that a double rotation moves without looking inside. */
  datatype Pieces = Pieces(near: Layout, inner: Layout, outer: Layout, far: Layout) {
    ghost function Nodes(): set<AvlNode> {
      near.Nodes() + inner.Nodes() + outer.Nodes() + far.Nodes()
    }

    ghost predicate Apart(low: AvlNode, up: AvlNode, other: AvlNode) {
      && low != up && up != other && low != other
      && {low, up, other} !! Nodes()
      && near.Nodes() !! inner.Nodes() && outer.Nodes() !! far.Nodes()
      && near.Nodes() + inner.Nodes() !! outer.Nodes() + far.Nodes()
    }

    /** The subtrees hang, in order, from these links and are, in order, these trees. */
    ghost predicate Hang(a: AvlNode?, b: AvlNode?, c: AvlNode?, d: AvlNode?, ta: Tree, tb: Tree, tc: Tree, td: Tree)
      reads Nodes()
    {
      near.Holds(a, ta) && inner.Holds(b, tb) && outer.Holds(c, tc) && far.Holds(d, td)
    }
  }

  lemma TakeApart(s: Layout, t: Tree, dir: Direction, low: AvlNode, up: AvlNode, other: AvlNode) returns (p: Pieces)
    requires s.Holds(low, t) && t.Node?
    requires Sub(t, Opposite(dir)).Node? && Sub(Sub(t, Opposite(dir)), dir).Node?
    requires other == low.Subtree(Opposite(dir)) && up == other.Subtree(dir)
    ensures p.Apart(low, up, other) && {low, up, other} + p.Nodes() == s.Nodes()
    ensures var child := Sub(t, Opposite(dir)); var mid := Sub(child, dir);
      && low.data == t.key && other.data == child.key && up.data == mid.key && up.bal == mid.bal
      && p.Hang(low.Subtree(dir), up.Subtree(dir), up.Subtree(Opposite(dir)), other.Subtree(Opposite(dir)),
                Sub(t, dir), Sub(mid, dir), Sub(mid, Opposite(dir)), Sub(child, Opposite(dir)))
  {
    var child := s.Side(Opposite(dir));
    SideHolds(s, t, dir);
    SideHolds(s, t, Opposite(dir));
    SideHolds(child, Sub(t, Opposite(dir)), dir);
    SideHolds(child, Sub(t, Opposite(dir)), Opposite(dir));
    var mid := child.Side(dir);
    SideHolds(mid, Sub(Sub(t, Opposite(dir)), dir), dir);
    SideHolds(mid, Sub(Sub(t, Opposite(dir)), dir), Opposite(dir));
    p := Pieces(s.Side(dir), mid.Side(dir), mid.Side(Opposite(dir)), child.Side(Opposite(dir)));
  }

  lemma PutTogether(p: Pieces, low: AvlNode, up: AvlNode, other: AvlNode, dir: Direction, r: Tree) returns (s: Layout)
    requires p.Apart(low, up, other) && r.Node? && Sub(r, dir).Node? && Sub(r, Opposite(dir)).Node?
    requires up.Subtree(dir) == low && up.Subtree(Opposite(dir)) == other
    requires low.data == Sub(r, dir).key && low.bal == Sub(r, dir).bal && up.data == r.key && up.bal == r.bal
    requires other.data == Sub(r, Opposite(dir)).key && other.bal == Sub(r, Opposite(dir)).bal
    requires p.Hang(low.Subtree(dir), low.Subtree(Opposite(dir)), other.Subtree(dir), other.Subtree(Opposite(dir)),
                    Sub(Sub(r, dir), dir), Sub(Sub(r, dir), Opposite(dir)),
                    Sub(Sub(r, Opposite(dir)), dir), Sub(Sub(r, Opposite(dir)), Opposite(dir)))
    ensures s.Holds(up, r) && s.Nodes() == {low, up, other} + p.Nodes()
  {
    var near, far := PutBelow(p, low, other, dir, Sub(r, dir), Sub(r, Opposite(dir)));
    s := Assemble(dir, near, up, far, r);
  }

  lemma PutBelow(p: Pieces, low: AvlNode, other: AvlNode, dir: Direction, tl: Tree, to: Tree)
    returns (near: Layout, far: Layout)
    requires low != other && low !in p.Nodes() && other !in p.Nodes() && tl.Node? && to.Node?
    requires p.near.Nodes() !! p.inner.Nodes() && p.outer.Nodes() !! p.far.Nodes()
    requires p.near.Nodes() + p.inner.Nodes() !! p.outer.Nodes() + p.far.Nodes()
    requires low.data == tl.key && low.bal == tl.bal && other.data == to.key && other.bal == to.bal
    requires p.Hang(low.Subtree(dir), low.Subtree(Opposite(dir)), other.Subtree(dir), other.Subtree(Opposite(dir)),
                    Sub(tl, dir), Sub(tl, Opposite(dir)), Sub(to, dir), Sub(to, Opposite(dir)))
    ensures near.Holds(low, tl) && far.Holds(other, to) && near.Nodes() !! far.Nodes()
    ensures near.Nodes() + far.Nodes() == {low, other} + p.Nodes()
  {
    assert low !in p.near.Nodes() && low !in p.inner.Nodes() && other !in p.outer.Nodes() && other !in p.far.Nodes();
    near := Assemble(dir, p.near, low, p.inner, tl);
    far := Assemble(dir, p.outer, other, p.far, to);
    TwoHalves(p.near.Nodes(), p.inner.Nodes(), p.outer.Nodes(), p.far.Nodes(), low, other);
  }

  lemma TwoHalves(a: set<AvlNode>, b: set<AvlNode>, c: set<AvlNode>, d: set<AvlNode>, low: AvlNode, other: AvlNode)
    requires a + b !! c + d && low != other && low !in a + b + c + d && other !in a + b + c + d
    ensures a + {low} + b !! c + {other} + d
    ensures (a + {low} + b) + (c + {other} + d) == {low, other} + (a + b + c + d)
  {
  }

  /** The new root exchanges its subtrees for its grandparent and its parent. */
  method RelinkLeft(low: AvlNode, up: AvlNode, other: AvlNode,
                   ghost p: Pieces, ghost ta: Tree, ghost tb: Tree, ghost tc: Tree, ghost td: Tree)
    requires low != up && up != other && low != other && {low, up, other} !! p.Nodes()
    requires p.Hang(low.left, up.left, up.right, other.right, ta, tb, tc, td)
    modifies low`right, up`left, up`right, other`left
    ensures up.left == low && up.right == other
    ensures p.Hang(low.left, low.right, other.left, other.right, ta, tb, tc, td)
  {
    low.right, up.left := up.left, low;
    other.left, up.right := up.right, other;
  }

  method RelinkRight(low: AvlNode, up: AvlNode, other: AvlNode,
                   ghost p: Pieces, ghost ta: Tree, ghost tb: Tree, ghost tc: Tree, ghost td: Tree)
    requires low != up && up != other && low != other && {low, up, other} !! p.Nodes()
    requires p.Hang(low.right, up.right, up.left, other.left, ta, tb, tc, td)
    modifies low`left, up`left, up`right, other`right
    ensures up.right == low && up.left == other
    ensures p.Hang(low.right, low.left, other.right, other.left, ta, tb, tc, td)
  {
    low.left, up.right := up.right, low;
    other.right, up.left := up.left, other;
  }

  /** The balances after a double rotation follow from the old balance of the new root. */
  method Rebalance(low: AvlNode, up: AvlNode, other: AvlNode, ghost p: Pieces, ghost a: AvlNode?, ghost b: AvlNode?,
                   ghost c: AvlNode?, ghost d: AvlNode?, ghost ta: Tree, ghost tb: Tree, ghost tc: Tree, ghost td: Tree)
    requires low != up && up != other && low != other && {low, up, other} !! p.Nodes()
    requires up.left != null && up.right != null && {up.left, up.right} == {low, other}
    requires p.Hang(a, b, c, d, ta, tb, tc, td)
    modifies low`bal, up`bal, other`bal
    ensures p.Hang(a, b, c, d, ta, tb, tc, td)
    ensures up.left.bal == -Max(old(up.bal), 0) && up.right.bal == -Min(old(up.bal), 0) && up.bal == 0
  {
    up.left.bal, up.right.bal := -Max(up.bal, 0), -Min(up.bal, 0);
    up.bal := 0;
  }

  method RotateTwice(root: AvlNode, dir: Direction, ghost s: Layout, ghost t: Tree)
    returns (newRoot: AvlNode, ghost s': Layout)
    requires s.Holds(root, t) && Sub(t, Opposite(dir)).Node? && Sub(Sub(t, Opposite(dir)), dir).Node?
    modifies s.Nodes()
    ensures s'.Holds(newRoot, T.RotateTwice(t, dir)) && s'.Nodes() == s.Nodes()
  {
    SideHolds(s, t, Opposite(dir));
    SideHolds(s.Side(Opposite(dir)), Sub(t, Opposite(dir)), dir);
    var other := root.Subtree(Opposite(dir));
    newRoot := other.Subtree(dir);
    ghost var p := TakeApart(s, t, dir, root, newRoot, other);
    ghost var child := Sub(t, Opposite(dir));
    ghost var mid := Sub(child, dir);
    if dir.Left? {
      RelinkLeft(root, newRoot, other, p, t.left, mid.left, mid.right, child.right);
    } else {
      RelinkRight(root, newRoot, other, p, t.right, mid.right, mid.left, child.left);
    }
    Rebalance(root, newRoot, other, p, root.Subtree(dir), root.Subtree(Opposite(dir)),
              other.Subtree(dir), other.Subtree(Opposite(dir)),
              Sub(t, dir), Sub(mid, dir), Sub(mid, Opposite(dir)), Sub(child, Opposite(dir)));
    s' := PutTogether(p, root, newRoot, other, dir, T.RotateTwice(t, dir));
  }

  /** Returns 1 if the height changed, 0 if not. */
  method Balance(root: AvlNode, ghost s: Layout, ghost t: Tree)
    returns (newRoot: AvlNode, height: int, ghost s': Layout)
    requires s.Holds(root, t) && CanBalance(t)
    modifies s.Nodes()
    ensures s'.Holds(newRoot, T.Balance(t).tree) && s'.Nodes() == s.Nodes()
    ensures height == T.Balance(t).height
  {
    var special := false;
    SideHolds(s, t, Left);
    SideHolds(s, t, Right);
    if root.bal < -1 {
      if root.left.bal == 1 {
        newRoot, s' := RotateTwice(root, Right, s, t);
      } else {
        newRoot, special, s' := RotateOnce(root, Right, s, t);
      }
    } else if root.bal > 1 {
      if root.right.bal == -1 {
        newRoot, s' := RotateTwice(root, Left, s, t);
      } else {
        newRoot, special, s' := RotateOnce(root, Left, s, t);
      }
    } else {
      return root, 0, s;
    }
    height := if special then 0 else 1;
  }

  /** Put a changed subtree back under its node and update the balance there; `grown` is what results. */
  method Regraft(root: AvlNode, onLeft: bool, sub: AvlNode?, increase: int,
                 ghost s: Layout, ghost t: Tree, ghost sub': Layout, ghost subTree: Tree)
    returns (ghost s': Layout)
    requires s.At? && s.node == root && s.Distinct() && t.Node? && root.data == t.key && root.bal == t.bal
    requires var dir := if onLeft then Left else Right;
      && sub'.Holds(sub, subTree)
      && s.Side(Opposite(dir)).Holds(root.Subtree(Opposite(dir)), Sub(t, Opposite(dir)))
      && sub'.Nodes() !! s.Side(Opposite(dir)).Nodes() && root !in sub'.Nodes()
    modifies root
    ensures s'.Holds(root, Grown(t, onLeft, subTree, increase))
    ensures s'.Nodes() == sub'.Nodes() + {root} + s.Side(if onLeft then Right else Left).Nodes()
  {
    ghost var dir := if onLeft then Left else Right;
    if onLeft {
      root.left := sub;
      root.bal := root.bal - increase;
    } else {
      root.right := sub;
      root.bal := root.bal + increase;
    }
    ghost var grown := Grown(t, onLeft, subTree, increase);
    s' := Assemble(dir, sub', root, s.Side(Opposite(dir)), grown);
  }

  /** Rotate if a subtree changed in height and its node is not level; the height says by how much the node shrank. */
  method BalanceIfChanged(root: AvlNode, change: int, otherwise: int, ghost s: Layout, ghost t: Tree)
    returns (newRoot: AvlNode, height: int, ghost s': Layout)
    requires s.Holds(root, t) && CanBalance(t)
    modifies s.Nodes()
    ensures s'.Nodes() == s.Nodes()
    ensures s'.Holds(newRoot, if change != 0 && t.bal != 0 then T.Balance(t).tree else t)
    ensures height == if change != 0 && t.bal != 0 then T.Balance(t).height else otherwise
  {
    newRoot, height, s' := root, otherwise, s;
    if change != 0 && root.bal != 0 {
      newRoot, height, s' := Balance(root, s, t);
    }
  }

  /** Returns by how much the height grew, and whether the key was already there. */
  method Insert(root: AvlNode?, key: int, ghost s: Layout, ghost t: Tree, ghost nodes: set<AvlNode>)
    returns (newRoot: AvlNode, increase: int, duplicate: bool, ghost s': Layout)
    requires s.Holds(root, t) && Balanced(t) && nodes == s.Nodes()
    modifies nodes
    ensures s'.Holds(newRoot, T.Insert(t, key).tree)
    ensures nodes <= s'.Nodes() && fresh(s'.Nodes() - nodes)
    ensures increase == T.Insert(t, key).increase && duplicate == T.Insert(t, key).duplicate
    ensures duplicate ==> newRoot == root && s' == s && unchanged(nodes)
    decreases t
  {
    if root == null {
      newRoot := new AvlNode(key);
      s' := At(Nil, newRoot, Nil);
      return newRoot, 1, false, s';
    }
    SideHolds(s, t, Left);
    SideHolds(s, t, Right);
    if key == root.data {
      return root, 0, true, s;
    }
    var onLeft := key < root.data;
    ghost var dir := if onLeft then Left else Right;
    var sub;
    ghost var sub';
    sub, increase, duplicate, sub' :=
      Insert(if onLeft then root.left else root.right, key, s.Side(dir), Sub(t, dir), s.Side(dir).Nodes());
    ghost var subTree := T.Insert(Sub(t, dir), key).tree;
    if duplicate {
      return root, 0, true, s;
    }
    s' := Regraft(root, onLeft, sub, increase, s, t, sub', subTree);
    GrownNearlyBalanced(t, onLeft, subTree, increase);
    var changed;
    newRoot, changed, s' := BalanceIfChanged(root, increase, 1, s', Grown(t, onLeft, subTree, increase));
    increase := 1 - changed;
  }

  /** The data of the leftmost node. */
  method SmallestData(root: AvlNode, ghost s: Layout, ghost t: Tree) returns (data: int)
    requires s.Holds(root, t)
    ensures data == SmallestKey(t)
  {
    var n: AvlNode := root;
    ghost var here, tree := s, t;
    while n.left != null
      invariant here.Holds(n, tree) && tree.Node? && SmallestKey(tree) == SmallestKey(t)
      decreases tree
    {
      SideHolds(here, tree, Left);
      n, here, tree := n.left, here.left, tree.left;
    }
    SideHolds(here, tree, Left);
    data := n.data;
  }

  /** Put a shrunken subtree back and rebalance. */
  method AfterDelete(root: AvlNode, onLeft: bool, sub: AvlNode?, decrease: int,
                     ghost s: Layout, ghost t: Tree, ghost sub': Layout, ghost subTree: Tree)
    returns (newRoot: AvlNode, decrease': int, ghost s': Layout)
    requires s.At? && s.node == root && s.Distinct() && t.Node? && root.data == t.key && root.bal == t.bal
    requires var dir := if onLeft then Left else Right;
      && sub'.Holds(sub, subTree)
      && s.Side(Opposite(dir)).Holds(root.Subtree(Opposite(dir)), Sub(t, Opposite(dir)))
      && sub'.Nodes() <= s.Side(dir).Nodes()
    requires Replaces(t, onLeft, subTree, -decrease) && 0 <= decrease <= 1
    modifies s.Nodes()
    ensures s'.Holds(newRoot, T.AfterDelete(t, onLeft, subTree, decrease).tree) && s'.Nodes() <= s.Nodes()
    ensures decrease' == T.AfterDelete(t, onLeft, subTree, decrease).decrease
  {
    ghost var shrunk := Grown(t, onLeft, subTree, -decrease);
    s' := Regraft(root, onLeft, sub, -decrease, s, t, sub', subTree);
    GrownNearlyBalanced(t, onLeft, subTree, -decrease);
    newRoot, decrease', s' := BalanceIfChanged(root, decrease, decrease, s', shrunk);
  }

  /** Returns by how much the height shrank, and whether the target was found. */
  method Delete(root: AvlNode?, target: Target, ghost s: Layout, ghost t: Tree, ghost nodes: set<AvlNode>)
    returns (newRoot: AvlNode?, decrease: int, found: bool, ghost s': Layout)
    requires s.Holds(root, t) && Balanced(t) && nodes == s.Nodes()
    modifies nodes
    ensures s'.Holds(newRoot, T.Delete(t, target).tree) && s'.Nodes() <= nodes
    ensures decrease == T.Delete(t, target).decrease && found == T.Delete(t, target).found
    ensures !found ==> newRoot == root && s' == s && unchanged(nodes)
    decreases t, 1
  {
    if root == null {
      return null, 0, false, s;
    }
    SideHolds(s, t, Left);
    SideHolds(s, t, Right);
    var cmp := match target
      case ByKey(key) => key - root.data
      case Smallest => if root.left == null then 0 else -1;
    if cmp != 0 {
      var onLeft := cmp < 0;
      ghost var dir := if onLeft then Left else Right;
      var sub;
      ghost var sub';
      sub, decrease, found, sub' :=
        Delete(if onLeft then root.left else root.right, target, s.Side(dir), Sub(t, dir), s.Side(dir).Nodes());
      if !found {
        return root, 0, false, s;
      }
      newRoot, decrease, s' := AfterDelete(root, onLeft, sub, decrease, s, t, sub', T.Delete(Sub(t, dir), target).tree);
    } else if root.left == null || root.right == null {
      newRoot := if root.right == null then root.left else root.right;
      s' := if root.right == null then s.left else s.right;
      return newRoot, 1, true, s';
    } else {
      found := true;
      newRoot, decrease, s' := DeleteWithSuccessor(root, s, t, nodes);
    }
  }

  /** The successor's data moves up into this node and the successor is deleted below. */
  method DeleteWithSuccessor(root: AvlNode, ghost s: Layout, ghost t: Tree, ghost nodes: set<AvlNode>)
    returns (newRoot: AvlNode, decrease: int, ghost s': Layout)
    requires s.Holds(root, t) && Balanced(t) && nodes == s.Nodes() && t.Node? && t.right.Node?
    modifies nodes
    ensures var sub := T.Delete(t.right, Smallest); var moved := t.(key := SmallestKey(t.right));
      && Replaces(moved, false, sub.tree, -sub.decrease)
      && s'.Holds(newRoot, T.AfterDelete(moved, false, sub.tree, sub.decrease).tree) && s'.Nodes() <= nodes
      && decrease == T.AfterDelete(moved, false, sub.tree, sub.decrease).decrease
    decreases t, 0
  {
    SideHolds(s, t, Left);
    SideHolds(s, t, Right);
    ghost var moved := t.(key := SmallestKey(t.right));
    root.data := SmallestData(root.right, s.right, t.right);
    var sub, found;
    ghost var sub';
    sub, decrease, found, sub' := Delete(root.right, Smallest, s.right, t.right, s.right.Nodes());
    newRoot, decrease, s' := AfterDelete(root, false, sub, decrease, s, moved, sub', T.Delete(t.right, Smallest).tree);
  }

  /** Walk down by a comparison and return the node where it answers zero. */
  method Find(root: AvlNode?, compare: int -> int, ghost s: Layout, ghost t: Tree) returns (n: AvlNode?)
    requires s.Holds(root, t)
    ensures n == null <==> T.Find(t, compare).Empty?
    ensures n != null ==> n in s.Nodes() && n.data == T.Find(t, compare).key
  {
    n := root;
    ghost var here, tree := s, t;
    while n != null && compare(n.data) != 0
      invariant here.Holds(n, tree) && here.Nodes() <= s.Nodes() && T.Find(tree, compare) == T.Find(t, compare)
      decreases tree
    {
      SideHolds(here, tree, Left);
      SideHolds(here, tree, Right);
      if compare(n.data) < 0 {
        n, here, tree := n.left, here.left, tree.left;
      } else {
        n, here, tree := n.right, here.right, tree.right;
      }
    }
    if n != null { SideHolds(here, tree, Left); }
  }
}
