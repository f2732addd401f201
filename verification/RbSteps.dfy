/** The tree seen from one of its nodes, in memory: reading, moving, painting and rotating there. */
module RbSteps {
  import opened RbShape
  import opened RbHeap

  /** Memory m holds the tree that consists of t and its context c. */
  ghost predicate At(tree: Tree, m: Mem, t: Shape, c: Ctx)
    reads tree`root, tree`sentinel, tree.sentinel, m.Keys
  {
    && Real(m) && m.Keys == Nodes(t) + CtxNodes(c) && Apart(t, c)
    && tree.sentinel !in m && !tree.sentinel.red && tree.root == Ptr(Plug(t, c), tree.sentinel)
    && Laid(m, t, Parent(c), tree.sentinel) && CtxLaid(m, c, Ptr(t, tree.sentinel), tree.sentinel)
  }

  /** The node above the subtree, from that node's parent. */
  function Above(t: Shape, c: Ctx): Shape
    requires c.Under?
  {
    Mk(c.side, t, c.e, c.red, c.sib)
  }

  function Below(t: Shape, s: Side, c: Ctx): Ctx
    requires t.T?
  {
    Under(s, t.e, t.red, Kid(t, Other(s)), c)
  }

  lemma Up(tree: Tree, m: Mem, t: Shape, c: Ctx)
    requires At(tree, m, t, c) && c.Under?
    ensures At(tree, m, Above(t, c), c.up) && Whole(Above(t, c), c.up) == Whole(t, c)
  {
    ApartUp(t, c);
    LaidMk(m, c.side, t, c.e, c.red, c.sib, Parent(c.up), tree.sentinel);
    WholeUp(t, c);
  }

  lemma Down(tree: Tree, m: Mem, t: Shape, c: Ctx, s: Side)
    requires At(tree, m, t, c) && t.T?
    ensures At(tree, m, Kid(t, s), Below(t, s, c)) && Whole(Kid(t, s), Below(t, s, c)) == Whole(t, c)
    ensures Above(Kid(t, s), Below(t, s, c)) == t
  {
    ApartUp(Kid(t, s), Below(t, s, c));
    LaidMk(m, s, Kid(t, s), t.e, t.red, Kid(t, Other(s)), Parent(c), tree.sentinel);
    WholeUp(Kid(t, s), Below(t, s, c));
  }

  lemma ToTop(tree: Tree, m: Mem, t: Shape, c: Ctx)
    requires At(tree, m, t, c)
    ensures At(tree, m, Plug(t, c), Top) && Entries(Plug(t, c)) == Whole(t, c)
  {
    ApartPlug(t, c);
    LaidPlug(m, t, c, tree.sentinel);
    WholePlug(t, c);
  }

  /** What can be read at a node: the root, its fields, its children. */
  lemma Look(tree: Tree, m: Mem, t: Shape, c: Ctx)
    requires At(tree, m, t, c)
    ensures Ptr(t, tree.sentinel) == tree.root <==> c.Top?
    ensures Ptr(t, tree.sentinel).red == Red(t)
    ensures t.T? ==> t.e.node in m
    ensures t.T? ==> t.e.node.key == t.e.key && t.e.node.data == t.e.data && (c.Under? ==> t.e.node.parent == c.e.node)
    ensures t.T? ==> t.e.node.left == Ptr(t.l, tree.sentinel) && t.e.node.right == Ptr(t.r, tree.sentinel)
    ensures t.E? <==> Ptr(t, tree.sentinel) == tree.sentinel
  {
    PlugRoot(t, c);
    if t.T? { assert t.e.node in m.Keys && Matches(t.e.node, m[t.e.node]); }
  }

  /** What can be read above a node: its parent and its sibling. */
  lemma LookUp(tree: Tree, m: Mem, t: Shape, c: Ctx)
    requires At(tree, m, t, c) && c.Under?
    ensures c.e.node in m && c.e.node.red == c.red && (c.up.Under? ==> c.e.node.parent == c.up.e.node)
    ensures c.e.node.Child(c.side) == Ptr(t, tree.sentinel)
      && c.e.node.Child(Other(c.side)) == Ptr(c.sib, tree.sentinel)
    ensures c.sib.T? || t.T? ==> Ptr(t, tree.sentinel) != Ptr(c.sib, tree.sentinel)
    ensures Ptr(c.sib, tree.sentinel).red == Red(c.sib)
    ensures c.up.Top? <==> tree.root == c.e.node
  {
    assert c.e.node in m.Keys && Matches(c.e.node, m[c.e.node]);
    if c.sib.T? { assert c.sib.e.node in m.Keys && Matches(c.sib.e.node, m[c.sib.e.node]); }
    PlugRoot(Above(t, c), c.up);
    assert Plug(t, c) == Plug(Above(t, c), c.up) && Above(t, c).e == c.e;
  }

  /** rbtree_red and rbtree_black. */
  method Paint(tree: Tree, n: Node, red: bool, ghost m: Mem, ghost t: Shape, ghost c: Ctx) returns (ghost m': Mem)
    requires At(tree, m, t, c) && t.T? && n == t.e.node
    modifies n
    ensures At(tree, m', t.(red := red), c) && m'.Keys == m.Keys
    ensures Whole(t.(red := red), c) == Whole(t, c)
  {
    assert n in m.Keys;
    m' := SetRed(n, red, m);
    Painted(m, m', t, red, c, tree.sentinel);
  }

  lemma Painted(m: Mem, m': Mem, t: Shape, red: bool, c: Ctx, nil: Node)
    requires Apart(t, c) && t.T? && t.e.node in m && m' == m[t.e.node := m[t.e.node].(red := red)]
    requires Laid(m, t, Parent(c), nil) && CtxLaid(m, c, t.e.node, nil)
    ensures Laid(m', t.(red := red), Parent(c), nil) && CtxLaid(m', c, t.e.node, nil) && m'.Keys == m.Keys
    ensures Apart(t.(red := red), c) && Nodes(t.(red := red)) == Nodes(t)
    ensures Ptr(Plug(t.(red := red), c), nil) == Ptr(Plug(t, c), nil)
  {
    assert m'.Keys == m.Keys;
    LaidSame(m, m', t.l, t.e.node, nil);
    LaidSame(m, m', t.r, t.e.node, nil);
    CtxLaidSame(m, m', c, t.e.node, nil);
    if c.Under? { PlugPtr(t, t.(red := red), c, nil); }
  }

  /** rbtree_left_rotate and rbtree_right_rotate, at the root of subtree t. */
  method Rotate(tree: Tree, node: Node, s: Side, ghost m: Mem, ghost t: Shape, ghost c: Ctx) returns (ghost m': Mem)
    requires At(tree, m, t, c) && t.T? && node == t.e.node && Kid(t, Other(s)).T?
    modifies tree`root, m.Keys
    ensures At(tree, m', Rotated(t, s), c) && m'.Keys == m.Keys && Whole(Rotated(t, s), c) == Whole(t, c)
  {
    ghost var nil := tree.sentinel;
    ghost var y := Kid(t, Other(s));
    ghost var mid := Ptr(Kid(y, s), nil);
    CanRotate(tree, m, t, s, c);
    m' := Turn(tree, node, s, m, y.e.node, mid, Parent(c));
    RotatedTree(m, m', t, s, c, nil);
  }

  lemma CanRotate(tree: Tree, m: Mem, t: Shape, s: Side, c: Ctx)
    requires At(tree, m, t, c) && t.T? && Kid(t, Other(s)).T?
    ensures var mid := Ptr(Kid(Kid(t, Other(s)), s), tree.sentinel);
      && CanTurn(m, t.e.node, Kid(t, Other(s)).e.node, mid, Parent(c), s)
      && (mid in m <==> mid != tree.sentinel)
    ensures Parent(c) == null <==> t.e.node == tree.root
    ensures tree.sentinel !in Nodes(t) && tree.sentinel !in CtxNodes(c)
  {
    Turnable(m, t, s, c, tree.sentinel);
    TwoLevels(t, s, tree.sentinel);
    Look(tree, m, t, c);
  }

  lemma RotatedTree(m: Mem, m': Mem, t: Shape, s: Side, c: Ctx, nil: Node)
    requires Apart(t, c) && t.T? && Kid(t, Other(s)).T? && nil !in Nodes(t) && nil !in CtxNodes(c)
    requires t.e.node in m && Kid(t, Other(s)).e.node in m
    requires Turned(m, m', t.e.node, Kid(t, Other(s)).e.node, Ptr(Kid(Kid(t, Other(s)), s), nil), Parent(c), s)
    requires Laid(m, t, Parent(c), nil) && CtxLaid(m, c, t.e.node, nil)
    ensures Laid(m', Rotated(t, s), Parent(c), nil) && CtxLaid(m', c, Kid(t, Other(s)).e.node, nil)
    ensures Apart(Rotated(t, s), c) && Nodes(Rotated(t, s)) == Nodes(t) && Whole(Rotated(t, s), c) == Whole(t, c)
    ensures Ptr(Plug(Rotated(t, s), c), nil) == if c.Top? then Kid(t, Other(s)).e.node else Ptr(Plug(t, c), nil)
  {
    RotatedApart(t, s, c);
    RotatedEntries(t, s);
    LaidRotated(m, m', t, s, c, nil);
    TwoLevels(t, s, nil);
    CtxLaidRelinked(m, m', c, t.e.node, Kid(t, Other(s)).e.node, nil);
    if c.Under? { PlugPtr(t, Rotated(t, s), c, nil); }
  }

  // ---------- Around a node ----------

  /** The tree, seen from the sibling. */
  function Beside(t: Shape, c: Ctx): Ctx
    requires c.Under?
  {
    Under(Other(c.side), c.e, c.red, t, c.up)
  }

  lemma Across(tree: Tree, m: Mem, t: Shape, c: Ctx)
    requires At(tree, m, t, c) && c.Under?
    ensures At(tree, m, c.sib, Beside(t, c)) && Whole(c.sib, Beside(t, c)) == Whole(t, c)
  {
    Up(tree, m, t, c);
    Down(tree, m, Above(t, c), c.up, Other(c.side));
  }

  method PaintParent(tree: Tree, p: Node, red: bool, ghost m: Mem, ghost t: Shape, ghost c: Ctx) returns (ghost m': Mem)
    requires At(tree, m, t, c) && c.Under? && p == c.e.node
    modifies p
    ensures At(tree, m', t, c.(red := red)) && m'.Keys == m.Keys && Whole(t, c.(red := red)) == Whole(t, c)
  {
    Up(tree, m, t, c);
    m' := Paint(tree, p, red, m, Above(t, c), c.up);
    Down(tree, m', Above(t, c).(red := red), c.up, c.side);
  }

  method PaintSibling(tree: Tree, w: Node, red: bool, ghost m: Mem, ghost t: Shape, ghost c: Ctx)
    returns (ghost m': Mem)
    requires At(tree, m, t, c) && c.Under? && c.sib.T? && w == c.sib.e.node
    modifies w
    ensures var c' := c.(sib := c.sib.(red := red));
      At(tree, m', t, c') && m'.Keys == m.Keys && Whole(t, c') == Whole(t, c)
  {
    Across(tree, m, t, c);
    m' := Paint(tree, w, red, m, c.sib, Beside(t, c));
    Across(tree, m', c.sib.(red := red), Beside(t, c));
  }
}
