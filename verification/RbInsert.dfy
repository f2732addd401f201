/** rbtree_insert. */
module RbInsert {
  import opened RbShape
  import opened RbHeap
  import opened RbSteps
  import opened RbQueue

  /** The tree is in memory, is a red-black tree and is sorted. */
  ghost predicate Valid(tree: Tree)
    reads tree, tree.sentinel, tree.mem.Keys
  {
    At(tree, tree.mem, tree.shape, Top) && RedBlack(tree.shape) && Sorted(Entries(tree.shape))
  }

  /** The contents of the tree as a queue. */
  ghost function Contents(tree: Tree): seq<Entry>
    reads tree
  {
    Entries(tree.shape)
  }

  // ---------- The place of a new key ----------

  ghost predicate Between(c: Ctx, k: int) { NoneAbove(Before(c), k) && AllAbove(After(c), k) }

  function SideOf(k: int, key: int): Side { if k < key then Left else Right }

  lemma Narrow(t: Shape, c: Ctx, k: int)
    requires t.T? && Sorted(Whole(t, c)) && Between(c, k)
    ensures Between(Below(t, SideOf(k, t.e.key), c), k)
  {
    SortedParts(Before(c), Entries(t.l), t.e, Entries(t.r), After(c));
    if k < t.e.key {
      AboveConcat(t.e, Entries(t.r), After(c), k);
    } else {
      BelowConcat(Before(c), Entries(t.l), t.e, k);
    }
  }

  // ---------- Rebalancing, on shapes ----------

  /** Only the new red node and its parent may both be red, or the new node the root. */
  predicate Nearly(t: Shape, c: Ctx) {
    Red(t) && Balanced(t) && Calm(t) && Fits(c, Height(t)) && Quiet(c)
  }

  /** A red parent has a black parent. */
  lemma RedParent(t: Shape, c: Ctx)
    requires Nearly(t, c) && c.Under? && c.red
    ensures c.up.Under? && !c.up.red && !Red(c.sib)
  {
  }

  /** Parent and uncle black, grandparent red. */
  function Flipped(t: Shape, c: Ctx): Shape
    requires c.Under? && c.up.Under? && c.up.sib.T?
  {
    Mk(c.up.side, Mk(c.side, t, c.e, false, c.sib), c.up.e, true, c.up.sib.(red := false))
  }

  lemma FlippedNearly(t: Shape, c: Ctx)
    requires Nearly(t, c) && c.Under? && c.red && c.up.Under? && Red(c.up.sib)
    ensures Nearly(Flipped(t, c), c.up.up)
  {
    assert Fits(c.up, Height(t)) && Quiet(c.up) && !c.up.red;
    var p := Mk(c.side, t, c.e, false, c.sib);
    assert Balanced(p) && Calm(p) && Height(p) == Height(t) + 1;
    var u := c.up.sib.(red := false);
    assert Balanced(u) && Calm(u) && Height(u) == Height(t) + 1;
  }

  /** An inner grandchild (on the other side than its parent) is turned into an outer one: the parent
      goes below it. */
  lemma InnerNearly(t: Shape, c: Ctx)
    requires Nearly(t, c) && c.Under? && c.red
    ensures var s := Other(c.side);
      var r := Rotated(Above(t, c), s);
      Nearly(Kid(r, s), Below(r, s, c.up)) && Below(r, s, c.up).red
  {
  }

  /** The outer grandchild with its parent black and its grandparent red and rotated. */
  lemma OuterNearly(t: Shape, c: Ctx)
    requires Nearly(t, c) && c.Under? && c.red && c.up.Under? && c.up.side == c.side && !Red(c.up.sib)
    ensures var c' := Under(c.side, c.e, false, Mk(c.side, c.sib, c.up.e, true, c.up.sib), c.up.up);
      Good(t, c')
  {
    assert Fits(c.up, Height(t)) && Quiet(c.up) && !c.up.red;
    var g := Mk(c.side, c.sib, c.up.e, true, c.up.sib);
    assert Balanced(g) && Calm(g) && Height(g) == Height(t);
  }

  // ---------- Rebalancing, in memory ----------

  method Recolour(tree: Tree, p: Node, u: Node, g: Node, ghost m: Mem, ghost t: Shape, ghost c: Ctx)
    returns (ghost m': Mem)
    requires At(tree, m, t, c) && c.Under? && c.up.Under? && c.up.sib.T?
    requires p == c.e.node && g == c.up.e.node && u == c.up.sib.e.node
    modifies p, u, g
    ensures At(tree, m', Flipped(t, c), c.up.up) && m'.Keys == m.Keys && Whole(Flipped(t, c), c.up.up) == Whole(t, c)
  {
    m' := PaintParent(tree, p, false, m, t, c);
    ghost var t1 := Above(t, c.(red := false));
    Up(tree, m', t, c.(red := false));
    m' := PaintSibling(tree, u, false, m', t1, c.up);
    ghost var c1 := c.up.(sib := c.up.sib.(red := false));
    m' := PaintParent(tree, g, true, m', t1, c1);
    Up(tree, m', t1, c1.(red := true));
  }

  /** The rotation at the parent of an inner grandchild. */
  method TurnInner(tree: Tree, p: Node, s: Side, ghost m: Mem, ghost t: Shape, ghost c: Ctx)
    returns (ghost m': Mem, ghost t': Shape, ghost c': Ctx)
    requires At(tree, m, t, c) && Nearly(t, c) && c.Under? && c.red && c.side == Other(s) && p == c.e.node
    modifies tree`root, m.Keys
    ensures At(tree, m', t', c') && m'.Keys == m.Keys && Whole(t', c') == Whole(t, c) && t'.T? && t'.e.node == p
    ensures Nearly(t', c') && c'.Under? && c'.side == s && c'.red && c'.up == c.up && c'.e == t.e
  {
    InnerNearly(t, c);
    Up(tree, m, t, c);
    m' := Rotate(tree, p, s, m, Above(t, c), c.up);
    ghost var r := Rotated(Above(t, c), s);
    Down(tree, m', r, c.up, s);
    t', c' := Kid(r, s), Below(r, s, c.up);
  }

  /** The colours and the rotation at the grandparent of an outer grandchild. */
  method TurnOuter(tree: Tree, p: Node, g: Node, s: Side, ghost m: Mem, ghost t: Shape, ghost c: Ctx)
    returns (ghost m': Mem, ghost c': Ctx)
    requires At(tree, m, t, c) && c.Under? && c.up.Under? && c.side == s && c.up.side == s
    requires p == c.e.node && g == c.up.e.node
    modifies tree`root, m.Keys
    ensures At(tree, m', t, c') && m'.Keys == m.Keys && Whole(t, c') == Whole(t, c)
    ensures c' == Under(s, c.e, false, Mk(s, c.sib, c.up.e, true, c.up.sib), c.up.up)
  {
    LookUp(tree, m, t, c);
    m' := PaintParent(tree, p, false, m, t, c);
    ghost var t1 := Above(t, c.(red := false));
    Up(tree, m', t, c.(red := false));
    LookUp(tree, m', t1, c.up);
    m' := PaintParent(tree, g, true, m', t1, c.up);
    ghost var t2 := Above(t1, c.up.(red := true));
    Up(tree, m', t1, c.up.(red := true));
    m' := Rotate(tree, g, Other(s), m', t2, c.up.up);
    ghost var r := Rotated(t2, Other(s));
    Down(tree, m', r, c.up.up, s);
    c' := Below(r, s, c.up.up);
  }

  /** The nodes above a red node whose parent is red. */
  lemma LookAbove(tree: Tree, m: Mem, t: Shape, c: Ctx)
    requires At(tree, m, t, c) && Nearly(t, c) && c.Under? && c.red
    ensures c.up.Under? && t.e.node.parent == c.e.node && c.e.node.parent == c.up.e.node
    ensures c.e.node == c.up.e.node.left <==> c.up.side.Left?
    ensures c.up.e.node.Child(Other(c.up.side)) == Ptr(c.up.sib, tree.sentinel)
    ensures Ptr(c.up.sib, tree.sentinel).red == Red(c.up.sib)
    ensures t.e.node == c.e.node.left <==> c.side.Left?
    ensures c.e.node.left != null && c.e.node.right != null
    ensures c.e.node in m && c.up.e.node in m && (c.up.sib.T? ==> c.up.sib.e.node in m)
  {
    RedParent(t, c);
    Look(tree, m, t, c);
    LookUp(tree, m, t, c);
    Up(tree, m, t, c);
    LookUp(tree, m, Above(t, c), c.up);
  }

  /** One round of the rebalancing loop. */
  method Round(tree: Tree, node: Node, ghost m: Mem, ghost t: Shape, ghost c: Ctx)
    returns (node': Node, ghost m': Mem, ghost t': Shape, ghost c': Ctx)
    requires At(tree, m, t, c) && Nearly(t, c) && node == t.e.node && c.Under? && c.red
    modifies tree`root, m.Keys
    ensures At(tree, m', t', c') && Nearly(t', c') && node' == t'.e.node && m'.Keys == m.Keys
    ensures Whole(t', c') == Whole(t, c) && Depth(c') < Depth(c)
  {
    LookAbove(tree, m, t, c);
    var p := node.parent;
    var g := p.parent;
    var s := if p == g.left then Left else Right;
    var u := if s.Left? then g.right else g.left;
    if u.red {
      FlippedNearly(t, c);
      m' := Recolour(tree, p, u, g, m, t, c);
      node', t', c' := g, Flipped(t, c), c.up.up;
    } else if node == (if s.Left? then p.right else p.left) {
      var m1, t1, c1 := TurnInner(tree, p, s, m, t, c);
      OuterNearly(t1, c1);
      m', c' := TurnOuter(tree, node, g, s, m1, t1, c1);
      node', t' := p, t1;
    } else {
      OuterNearly(t, c);
      m', c' := TurnOuter(tree, p, g, s, m, t, c);
      node', t' := node, t;
    }
  }

  method Rebalance(tree: Tree, node: Node, ghost m: Mem, ghost t: Shape, ghost c: Ctx)
    returns (ghost m': Mem, ghost w: Shape)
    requires At(tree, m, t, c) && Nearly(t, c) && node == t.e.node
    modifies tree`root, m.Keys
    ensures At(tree, m', w, Top) && m'.Keys == m.Keys && RedBlack(w) && Entries(w) == Whole(t, c)
  {
    var n := node;
    ghost var t1, c1 := t, c;
    m' := m;
    Look(tree, m, t, c);
    if c.Under? { LookUp(tree, m, t, c); }
    while n != tree.root && n.parent.red
      invariant At(tree, m', t1, c1) && Nearly(t1, c1) && n == t1.e.node && m'.Keys == m.Keys
      invariant Whole(t1, c1) == Whole(t, c)
      invariant n == tree.root <==> c1.Top?
      invariant c1.Under? ==> n.parent == c1.e.node && c1.e.node.red == c1.red
      decreases Depth(c1)
    {
      n, m', t1, c1 := Round(tree, n, m', t1, c1);
      Look(tree, m', t1, c1);
      if c1.Under? { LookUp(tree, m', t1, c1); }
    }
    w := Plug(t1, c1);
    ToTop(tree, m', t1, c1);
    Settled(t1, c1);
    m' := Paint(tree, tree.root, false, m', w, Top);
    w := w.(red := false);
  }

  lemma Settled(t: Shape, c: Ctx)
    requires Nearly(t, c) && (c.Under? ==> !c.red)
    ensures var w := Plug(t, c); w.T? && RedBlack(w.(red := false))
  {
    if c.Under? {
      GoodPlug(t, c);
      PlugRoot(t, c);
    }
  }

  // ---------- Insertion ----------

  method MakeLeaf(node: Node, parent: Node?, nil: Node, red: bool, ghost m: Mem) returns (ghost m': Mem)
    requires Real(m) && node !in m
    modifies node
    ensures node.key == old(node.key) && node.data == old(node.data)
    ensures m' == m[node := Cell(nil, nil, parent, node.key, node.data, red)] && Real(m')
  {
    node.parent, node.left, node.right, node.red := parent, nil, nil, red;
    m' := m[node := Cell(nil, nil, parent, node.key, node.data, red)];
  }

  /** The new node becomes a red leaf on side s of `temp`. */
  method Attach(tree: Tree, node: Node, temp: Node, s: Side, ghost m: Mem, ghost c: Ctx) returns (ghost m': Mem)
    requires At(tree, m, E, c) && c.Under? && temp == c.e.node && s == c.side && node !in m && node != tree.sentinel
    modifies temp, node
    ensures node.key == old(node.key) && node.data == old(node.data)
    ensures At(tree, m', T(E, Entry(node, node.key, node.data), true, E), c) && m'.Keys == m.Keys + {node}
  {
    ghost var nil := tree.sentinel;
    assert temp in m.Keys;
    m' := SetChild(temp, s, node, m);
    m' := MakeLeaf(node, temp, tree.sentinel, true, m');
    Attached(m, m', node, node.key, node.data, c, nil);
  }

  lemma Attached(m: Mem, m': Mem, node: Node, key: int, data: int, c: Ctx, nil: Node)
    requires c.Under? && CtxLaid(m, c, nil, nil) && CtxDistinct(c) && node !in CtxNodes(c)
    requires c.e.node in m && node != c.e.node
    requires m' == m[c.e.node := m[c.e.node].WithChild(c.side, node)][node := Cell(nil, nil, c.e.node, key, data, true)]
    ensures CtxLaid(m', c, node, nil) && Apart(T(E, Entry(node, key, data), true, E), c)
    ensures Ptr(Plug(T(E, Entry(node, key, data), true, E), c), nil) == Ptr(Plug(E, c), nil)
  {
    LaidSame(m, m', c.sib, c.e.node, nil);
    CtxLaidSame(m, m', c.up, c.e.node, nil);
    PlugPtr(E, T(E, Entry(node, key, data), true, E), c, nil);
  }

  /** The descent to the node that gets the new leaf, and the side it gets it on. */
  method Search(tree: Tree, k: int) returns (temp: Node, s: Side, ghost c: Ctx)
    requires Valid(tree) && tree.shape.T?
    ensures At(tree, tree.mem, E, c) && c.Under? && temp == c.e.node && s == c.side
    ensures Good(E, c) && Whole(E, c) == Contents(tree) && Between(c, k)
  {
    temp := tree.root;
    ghost var t, c1 := tree.shape, Top;
    assert Whole(t, c1) == Entries(t);
    while true
      invariant At(tree, tree.mem, t, c1) && t.T? && temp == t.e.node && Good(t, c1)
      invariant Whole(t, c1) == Contents(tree) && Between(c1, k)
      decreases t
    {
      Look(tree, tree.mem, t, c1);
      s := if k < temp.key then Left else Right;
      c := Below(t, s, c1);
      Down(tree, tree.mem, t, c1, s);
      GoodUp(Kid(t, s), c);
      Narrow(t, c1, k);
      var next := if s.Left? then temp.left else temp.right;
      if next == tree.sentinel {
        Look(tree, tree.mem, Kid(t, s), c);
        break;
      }
      temp := next;
      t, c1 := Kid(t, s), c;
    }
  }

  /** rbtree_insert. */
  method Insert(tree: Tree, node: Node)
    requires Valid(tree) && node !in tree.mem && node != tree.sentinel
    modifies tree`root, tree`shape, tree`mem, tree.mem.Keys, node
    ensures Valid(tree) && tree.mem.Keys == old(tree.mem.Keys) + {node}
    ensures Contents(tree) == Enqueue(old(Contents(tree)), Entry(node, old(node.key), old(node.data)))
  {
    ghost var was := Contents(tree);
    ghost var e := Entry(node, node.key, node.data);
    ghost var m, w;
    Look(tree, tree.mem, tree.shape, Top);
    if tree.root == tree.sentinel {
      m, w := InsertFirst(tree, node);
    } else {
      m, w := InsertBelow(tree, node);
    }
    tree.mem, tree.shape := m, w;
    EnqueueSorted(was, e);
  }

  method InsertFirst(tree: Tree, node: Node) returns (ghost m: Mem, ghost w: Shape)
    requires Valid(tree) && node !in tree.mem && node != tree.sentinel && tree.shape.E?
    modifies tree`root, node
    ensures At(tree, m, w, Top) && RedBlack(w) && m.Keys == tree.mem.Keys + {node}
    ensures Entries(w) == Enqueue(Contents(tree), Entry(node, old(node.key), old(node.data)))
  {
    w := T(E, Entry(node, node.key, node.data), false, E);
    m := MakeLeaf(node, null, tree.sentinel, false, tree.mem);
    tree.root := node;
  }

  method InsertBelow(tree: Tree, node: Node) returns (ghost m: Mem, ghost w: Shape)
    requires Valid(tree) && node !in tree.mem && node != tree.sentinel && tree.shape.T?
    modifies tree`root, tree.mem.Keys, node
    ensures At(tree, m, w, Top) && RedBlack(w) && m.Keys == tree.mem.Keys + {node}
    ensures Entries(w) == Enqueue(Contents(tree), Entry(node, old(node.key), old(node.data)))
  {
    ghost var e := Entry(node, node.key, node.data);
    var temp, s, c := Search(tree, node.key);
    LeafPlace(e, c);
    m := Attach(tree, node, temp, s, tree.mem, c);
    m, w := Rebalance(tree, node, m, T(E, e, true, E), c);
  }

  lemma LeafPlace(e: Entry, c: Ctx)
    requires Between(c, e.key) && Good(E, c)
    ensures Whole(T(E, e, true, E), c) == Enqueue(Whole(E, c), e) && Nearly(T(E, e, true, E), c)
  {
    var b, a := Before(c), After(c);
    EnqueueBetween(b, e, a);
    assert Entries(E) == [] && b + [] + a == b + a;
    assert Entries(T(E, e, true, E)) == [e] by { assert [] + [e] + [] == [e]; }
  }
}
