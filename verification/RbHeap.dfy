/** The tree in memory: what the nodes of a shape contain, and the steps that change links and colours. */
module RbHeap {
  import opened RbShape

  // ---------- Shapes in a memory ----------

  /** The contents of a node. */
  datatype Cell = Cell(left: Node?, right: Node?, parent: Node?, key: int, data: int, red: bool) {
    function Child(s: Side): Node? { if s.Left? then left else right }

    function WithChild(s: Side, x: Node?): Cell { if s.Left? then this.(left := x) else this.(right := x) }
  }

  type Mem = map<Node, Cell>

  function Ptr(t: Shape, nil: Node): Node { if t.E? then nil else t.e.node }

  function Parent(c: Ctx): Node? { if c.Top? then null else c.e.node }

  /** Node e.node has the given children and, unless it is the root, the given parent. */
  predicate Has(m: Mem, e: Entry, red: bool, s: Side, near: Node, far: Node, p: Node?) {
    && e.node in m && m[e.node].key == e.key && m[e.node].data == e.data && m[e.node].red == red
    && m[e.node].Child(s) == near && m[e.node].Child(Other(s)) == far && (p != null ==> m[e.node].parent == p)
  }

  /** Memory m contains shape t, below p. */
  predicate Laid(m: Mem, t: Shape, p: Node?, nil: Node) {
    t.T? ==>
      && Has(m, t.e, t.red, Left, Ptr(t.l, nil), Ptr(t.r, nil), p)
      && Laid(m, t.l, t.e.node, nil) && Laid(m, t.r, t.e.node, nil)
  }

  /** Memory m contains context c, with x in its hole. */
  predicate CtxLaid(m: Mem, c: Ctx, x: Node, nil: Node)
    decreases c
  {
    c.Under? ==>
      && Has(m, c.e, c.red, c.side, x, Ptr(c.sib, nil), Parent(c.up))
      && Laid(m, c.sib, c.e.node, nil) && CtxLaid(m, c.up, c.e.node, nil)
  }

  predicate Same(m: Mem, m': Mem, ns: set<Node>) { forall n <- ns :: n in m ==> n in m' && m'[n] == m[n] }

  lemma {:induction false} LaidSame(m: Mem, m': Mem, t: Shape, p: Node?, nil: Node)
    requires Laid(m, t, p, nil) && Same(m, m', Nodes(t))
    ensures Laid(m', t, p, nil)
  {
    if t.T? {
      LaidSame(m, m', t.l, t.e.node, nil);
      LaidSame(m, m', t.r, t.e.node, nil);
    }
  }

  lemma {:induction false} CtxLaidSame(m: Mem, m': Mem, c: Ctx, x: Node, nil: Node)
    requires CtxLaid(m, c, x, nil) && Same(m, m', CtxNodes(c))
    ensures CtxLaid(m', c, x, nil)
    decreases c
  {
    if c.Under? {
      LaidSame(m, m', c.sib, c.e.node, nil);
      CtxLaidSame(m, m', c.up, c.e.node, nil);
    }
  }

  lemma LaidMk(m: Mem, s: Side, a: Shape, e: Entry, red: bool, b: Shape, p: Node?, nil: Node)
    ensures Laid(m, Mk(s, a, e, red, b), p, nil) <==>
      Has(m, e, red, s, Ptr(a, nil), Ptr(b, nil), p) && Laid(m, a, e.node, nil) && Laid(m, b, e.node, nil)
  {
  }

  /** A tree in memory is a subtree and what surrounds it. */
  lemma {:induction false} LaidPlug(m: Mem, t: Shape, c: Ctx, nil: Node)
    ensures Laid(m, Plug(t, c), null, nil) <==> Laid(m, t, Parent(c), nil) && CtxLaid(m, c, Ptr(t, nil), nil)
    decreases c
  {
    if c.Under? {
      LaidMk(m, c.side, t, c.e, c.red, c.sib, Parent(c.up), nil);
      LaidPlug(m, Mk(c.side, t, c.e, c.red, c.sib), c.up, nil);
    }
  }

  ghost predicate Apart(t: Shape, c: Ctx) {
    Distinct(t) && CtxDistinct(c) && Nodes(t) !! CtxNodes(c)
  }

  lemma ApartUp(t: Shape, c: Ctx)
    requires c.Under?
    ensures var u := Mk(c.side, t, c.e, c.red, c.sib);
      Nodes(u) + CtxNodes(c.up) == Nodes(t) + CtxNodes(c) && (Apart(u, c.up) <==> Apart(t, c))
  {
  }

  lemma {:induction false} ApartPlug(t: Shape, c: Ctx)
    ensures Distinct(Plug(t, c)) <==> Apart(t, c)
    ensures Nodes(Plug(t, c)) == Nodes(t) + CtxNodes(c)
    decreases c
  {
    if c.Under? {
      ApartPlug(Mk(c.side, t, c.e, c.red, c.sib), c.up);
      ApartUp(t, c);
    }
  }

  lemma {:induction false} PlugRoot(t: Shape, c: Ctx)
    ensures c.Under? ==> Plug(t, c).T? && Plug(t, c).e.node in CtxNodes(c)
    decreases c
  {
    if c.Under? { PlugRoot(Mk(c.side, t, c.e, c.red, c.sib), c.up); }
  }

  lemma {:induction false} PlugPtr(t: Shape, t': Shape, c: Ctx, nil: Node)
    requires c.Under?
    ensures Ptr(Plug(t, c), nil) == Ptr(Plug(t', c), nil)
    decreases c
  {
    if c.up.Under? { PlugPtr(Mk(c.side, t, c.e, c.red, c.sib), Mk(c.side, t', c.e, c.red, c.sib), c.up, nil); }
  }

  // ---------- The memory ----------

  /** struct rbtree, with the shape it holds and the contents of its nodes. */
  class Tree {
    var root: Node
    var sentinel: Node
    ghost var shape: Shape
    ghost var mem: Mem

    /** rbtree_init. */
    constructor (node: Node)
      modifies node
      ensures root == node && sentinel == node && shape == E && mem == map[] && !node.red
    {
      root, sentinel, shape, mem := node, node, E, map[];
      new;
      InitNode(node);
      node.red := false;
    }
  }

  /** rbtree_node_init. */
  method InitNode(node: Node)
    modifies node
    ensures node.left == null && node.right == null && node.parent == null && node.key == 0 && node.data == 0
    ensures node.red == old(node.red)
  {
    node.left, node.right, node.parent, node.key, node.data := null, null, null, 0, 0;
  }

  ghost predicate Matches(n: Node, v: Cell)
    reads n
  {
    v == Cell(n.left, n.right, n.parent, n.key, n.data, n.red)
  }

  /** m is what is in memory. */
  ghost predicate Real(m: Mem)
    reads m.Keys
  {
    forall n <- m.Keys :: Matches(n, m[n])
  }

  // ---------- Steps on cells ----------

  method SetRed(n: Node, red: bool, ghost m: Mem) returns (ghost m': Mem)
    requires Real(m) && n in m
    modifies n
    ensures m' == m[n := m[n].(red := red)] && Real(m')
  {
    n.red := red;
    m' := m[n := m[n].(red := red)];
  }

  method SetChild(n: Node, s: Side, x: Node, ghost m: Mem) returns (ghost m': Mem)
    requires Real(m) && n in m
    modifies n
    ensures m' == m[n := m[n].WithChild(s, x)] && Real(m')
  {
    if s.Left? { n.left := x; } else { n.right := x; }
    m' := m[n := m[n].WithChild(s, x)];
  }

  method SetParent(n: Node, x: Node?, ghost m: Mem) returns (ghost m': Mem)
    requires Real(m) && n in m
    modifies n
    ensures m' == m[n := m[n].(parent := x)] && Real(m')
  {
    n.parent := x;
    m' := m[n := m[n].(parent := x)];
  }

  /** The link to `node`, from its parent p or from the root, becomes a link to x. */
  method Relink(tree: Tree, node: Node, x: Node, ghost p: Node?, ghost m: Mem) returns (ghost m': Mem)
    requires Real(m) && (p == null <==> node == tree.root)
    requires p != null ==> p == node.parent && p in m && (m[p].left == node || m[p].right == node)
    modifies tree`root, if p == null then {} else {p}
    ensures tree.root == if p == null then x else old(tree.root)
    ensures m' == Relinked(m, p, node, x) && Real(m')
  {
    m' := m;
    if node == tree.root {
      tree.root := x;
    } else if node == node.parent.left {
      m' := SetChild(node.parent, Left, x, m);
    } else {
      m' := SetChild(node.parent, Right, x, m);
    }
  }

  ghost function Relinked(m: Mem, p: Node?, node: Node, x: Node): (m': Mem)
    requires p != null ==> p in m
    ensures m'.Keys == m.Keys
  {
    if p == null then m
    else m[p := m[p].WithChild(if m[p].left == node then Left else Right, x)]
  }

  // ---------- Rotation of cells ----------

  /** The cells after a rotation towards side s: `node` moves down, `temp` takes its place below p and
      the subtree `mid` between them changes sides. */
  ghost function TurnedCell(m: Mem, n: Node, node: Node, temp: Node, mid: Node, p: Node?, s: Side): Cell
    requires node in m && temp in m && n in m
  {
    if n == node then m[n].WithChild(Other(s), mid).(parent := temp)
    else if n == temp then m[n].WithChild(s, node).(parent := m[node].parent)
    else if n == mid then m[n].(parent := node)
    else if n == p then m[n].WithChild(if m[n].left == node then Left else Right, temp)
    else m[n]
  }

  ghost predicate Turned(m: Mem, m': Mem, node: Node, temp: Node, mid: Node, p: Node?, s: Side)
    requires node in m && temp in m
  {
    m'.Keys == m.Keys && forall n <- m.Keys :: m'[n] == TurnedCell(m, n, node, temp, mid, p, s)
  }

  ghost predicate CanTurn(m: Mem, node: Node, temp: Node, mid: Node, p: Node?, s: Side) {
    && node in m && temp in m && node != temp && mid != node && mid != temp
    && m[node].Child(Other(s)) == temp && m[temp].Child(s) == mid
    && (p != null ==>
          && p in m && p == m[node].parent && p != node && p != temp && p != mid
          && (m[p].left == node || m[p].right == node))
  }

  /** The middle subtree changes sides. */
  method Cross(tree: Tree, node: Node, mid: Node, s: Side, ghost m: Mem) returns (ghost m': Mem)
    requires Real(m) && node in m && mid != node && (mid in m <==> mid != tree.sentinel)
    modifies node, if mid == tree.sentinel then {} else {mid}
    ensures Real(m') && m'.Keys == m.Keys && m'[node] == m[node].WithChild(Other(s), mid)
    ensures forall n <- m.Keys :: n != node ==> m'[n] == if n == mid then m[n].(parent := node) else m[n]
  {
    m' := SetChild(node, Other(s), mid, m);
    if mid != tree.sentinel { m' := SetParent(mid, node, m'); }
  }

  /** The lower node takes the place of the upper one. */
  method Raise(tree: Tree, node: Node, temp: Node, ghost p: Node?, ghost m: Mem) returns (ghost m': Mem)
    requires Real(m) && node in m && temp in m && node != temp && (p == null <==> node == tree.root)
    requires p != null ==> p in m && p == m[node].parent && p != temp && (m[p].left == node || m[p].right == node)
    modifies tree`root, temp, if p == null then {} else {p}
    ensures tree.root == if p == null then temp else old(tree.root)
    ensures Real(m') && m' == Relinked(m[temp := m[temp].(parent := m[node].parent)], p, node, temp)
  {
    assert Matches(node, m[node]);
    m' := SetParent(temp, node.parent, m);
    m' := Relink(tree, node, temp, p, m');
  }

  method Hoist(tree: Tree, node: Node, temp: Node, mid: Node, s: Side, ghost p: Node?, ghost m: Mem)
    returns (ghost m1: Mem, ghost m2: Mem)
    requires Real(m) && CanTurn(m, node, temp, mid, p, s)
    requires (mid in m <==> mid != tree.sentinel) && (p == null <==> node == tree.root)
    modifies tree`root, m.Keys
    ensures m1.Keys == m.Keys && m1[node] == m[node].WithChild(Other(s), mid)
    ensures forall n <- m.Keys :: n != node ==> m1[n] == if n == mid then m[n].(parent := node) else m[n]
    ensures Real(m2) && m2 == Relinked(m1[temp := m1[temp].(parent := m1[node].parent)], p, node, temp)
    ensures tree.root == if p == null then temp else old(tree.root)
  {
    m1 := Cross(tree, node, mid, s, m);
    m2 := Raise(tree, node, temp, p, m1);
  }

  /** The upper node goes below the lower one. */
  method Lower(node: Node, temp: Node, s: Side, ghost m: Mem) returns (ghost m': Mem)
    requires Real(m) && node in m && temp in m && node != temp
    modifies node, temp
    ensures Real(m') && m' == m[temp := m[temp].WithChild(s, node)][node := m[node].(parent := temp)]
  {
    m' := SetChild(temp, s, node, m);
    m' := SetParent(node, temp, m');
  }

  /** rbtree_left_rotate (towards the left) and rbtree_right_rotate (towards the right). */
  method Turn(tree: Tree, node: Node, s: Side, ghost m: Mem, ghost temp0: Node, ghost mid0: Node, ghost p: Node?)
    returns (ghost m': Mem)
    requires Real(m) && CanTurn(m, node, temp0, mid0, p, s)
    requires (mid0 in m <==> mid0 != tree.sentinel) && (p == null <==> node == tree.root)
    modifies tree`root, m.Keys
    ensures Real(m') && Turned(m, m', node, temp0, mid0, p, s)
    ensures tree.root == if p == null then temp0 else old(tree.root)
  {
    assert Matches(node, m[node]) && Matches(temp0, m[temp0]);
    var temp := if s.Left? then node.right else node.left;
    var mid := if s.Left? then temp.left else temp.right;
    assert temp == temp0 && mid == mid0;
    ghost var m1, m2 := Hoist(tree, node, temp, mid, s, p, m);
    m' := Lower(node, temp, s, m2);
    TurnedSteps(m, m1, m2, m', node, temp0, mid0, p, s);
  }

  lemma TurnedSteps(m: Mem, m1: Mem, m2: Mem, m3: Mem, node: Node, temp: Node, mid: Node, p: Node?, s: Side)
    requires CanTurn(m, node, temp, mid, p, s)
    requires m1.Keys == m.Keys && m1[node] == m[node].WithChild(Other(s), mid)
    requires forall n <- m.Keys :: n != node ==> m1[n] == if n == mid then m[n].(parent := node) else m[n]
    requires m2 == Relinked(m1[temp := m1[temp].(parent := m1[node].parent)], p, node, temp)
    requires m3 == m2[temp := m2[temp].WithChild(s, node)][node := m2[node].(parent := temp)]
    ensures Turned(m, m3, node, temp, mid, p, s)
  {
    assert m3.Keys == m.Keys;
  }

  // ---------- Rotation of subtrees ----------

  /** What t becomes when its root moves down on side s. */
  function Rotated(t: Shape, s: Side): Shape
    requires t.T? && Kid(t, Other(s)).T?
  {
    var y := Kid(t, Other(s));
    Mk(s, Mk(s, Kid(t, s), t.e, t.red, Kid(y, s)), y.e, y.red, Kid(y, Other(s)))
  }

  /** A node, a child of it, and the three subtrees below them have no node in common. */
  lemma TwoLevels(t: Shape, s: Side, nil: Node)
    requires t.T? && Kid(t, Other(s)).T? && Distinct(t) && nil !in Nodes(t)
    ensures var y := Kid(t, Other(s));
      var a, b, d := Kid(t, s), Kid(y, s), Kid(y, Other(s));
      && Nodes(t) == Nodes(a) + Nodes(b) + Nodes(d) + {t.e.node, y.e.node} && t.e.node != y.e.node
      && Nodes(a) !! Nodes(b) && Nodes(a) !! Nodes(d) && Nodes(b) !! Nodes(d)
      && t.e.node !in Nodes(a) && t.e.node !in Nodes(b) && t.e.node !in Nodes(d)
      && y.e.node !in Nodes(a) && y.e.node !in Nodes(b) && y.e.node !in Nodes(d)
      && Distinct(a) && Distinct(b) && Distinct(d)
      && (Ptr(b, nil) in Nodes(b) || (b.E? && Ptr(b, nil) == nil))
  {
    var y := Kid(t, Other(s));
    assert Distinct(y) && Nodes(y) == Nodes(Kid(y, s)) + Nodes(Kid(y, Other(s))) + {y.e.node};
  }

  lemma RotatedApart(t: Shape, s: Side, c: Ctx)
    requires t.T? && Kid(t, Other(s)).T? && Apart(t, c)
    ensures Nodes(Rotated(t, s)) == Nodes(t) && Apart(Rotated(t, s), c)
  {
    var y := Kid(t, Other(s));
    assert Distinct(y) && Distinct(Mk(s, Kid(t, s), t.e, t.red, Kid(y, s)));
  }

  lemma RotatedEntries(t: Shape, s: Side)
    requires t.T? && Kid(t, Other(s)).T?
    ensures Entries(Rotated(t, s)) == Entries(t)
  {
    var y := Kid(t, Other(s));
    var a, b, d := Entries(Kid(t, s)), Entries(Kid(y, s)), Entries(Kid(y, Other(s)));
    if s.Left? {
      assert a + [t.e] + (b + [y.e] + d) == (a + [t.e] + b) + [y.e] + d;
    } else {
      assert d + [y.e] + (b + [t.e] + a) == (d + [y.e] + b) + [t.e] + a;
    }
  }

  lemma Turnable(m: Mem, t: Shape, s: Side, c: Ctx, nil: Node)
    requires t.T? && Kid(t, Other(s)).T? && Apart(t, c) && nil !in Nodes(t) && nil !in CtxNodes(c)
    requires Laid(m, t, Parent(c), nil) && CtxLaid(m, c, t.e.node, nil)
    ensures CanTurn(m, t.e.node, Kid(t, Other(s)).e.node, Ptr(Kid(Kid(t, Other(s)), s), nil), Parent(c), s)
  {
    var y := Kid(t, Other(s));
    TwoLevels(t, s, nil);
    LaidMk(m, s, Kid(t, s), t.e, t.red, y, Parent(c), nil);
    LaidMk(m, s, Kid(y, s), y.e, y.red, Kid(y, Other(s)), t.e.node, nil);
  }

  /** The subtree with a new parent. */
  lemma LaidMoved(m: Mem, m': Mem, t: Shape, p: Node?, q: Node, nil: Node)
    requires Laid(m, t, p, nil) && Distinct(t)
    requires forall n <- Nodes(t) ::
      n in m ==> n in m' && m'[n] == if n == Ptr(t, nil) then m[n].(parent := q) else m[n]
    ensures Laid(m', t, q, nil)
  {
    if t.T? {
      LaidSame(m, m', t.l, t.e.node, nil);
      LaidSame(m, m', t.r, t.e.node, nil);
    }
  }

  lemma TurnedSame(m: Mem, m': Mem, x: Node, y: Node, mid: Node, p: Node?, s: Side, ns: set<Node>)
    requires x in m && y in m && Turned(m, m', x, y, mid, p, s)
    requires x !in ns && y !in ns && mid !in ns && (p != null ==> p !in ns)
    ensures Same(m, m', ns)
  {
  }

  lemma TurnedMid(m: Mem, m': Mem, x: Entry, b: Shape, y: Entry, p: Node?, s: Side, nil: Node)
    requires x.node in m && y.node in m && Turned(m, m', x.node, y.node, Ptr(b, nil), p, s)
    requires Laid(m, b, y.node, nil) && Distinct(b)
    requires x.node !in Nodes(b) && y.node !in Nodes(b) && (p != null ==> p !in Nodes(b))
    ensures Laid(m', b, x.node, nil)
  {
    LaidMoved(m, m', b, y.node, x.node, nil);
  }

  lemma LaidRotated(m: Mem, m': Mem, t: Shape, s: Side, c: Ctx, nil: Node)
    requires t.T? && Kid(t, Other(s)).T? && Apart(t, c) && nil !in Nodes(t) && Laid(m, t, Parent(c), nil)
    requires Kid(t, Other(s)).e.node in m && t.e.node in m
    requires Turned(m, m', t.e.node, Kid(t, Other(s)).e.node, Ptr(Kid(Kid(t, Other(s)), s), nil), Parent(c), s)
    ensures Laid(m', Rotated(t, s), Parent(c), nil)
  {
    var y := Kid(t, Other(s));
    var a, b, d := Kid(t, s), Kid(y, s), Kid(y, Other(s));
    TwoLevels(t, s, nil);
    LaidMk(m, s, a, t.e, t.red, y, Parent(c), nil);
    LaidMk(m, s, b, y.e, y.red, d, t.e.node, nil);
    TurnedSame(m, m', t.e.node, y.e.node, Ptr(b, nil), Parent(c), s, Nodes(a));
    LaidSame(m, m', a, t.e.node, nil);
    TurnedSame(m, m', t.e.node, y.e.node, Ptr(b, nil), Parent(c), s, Nodes(d));
    LaidSame(m, m', d, y.e.node, nil);
    TurnedMid(m, m', t.e, b, y.e, Parent(c), s, nil);
    HasRotated(m, m', s, Ptr(a, nil), t.e, t.red, Ptr(b, nil), y.e, y.red, Ptr(d, nil), Parent(c));
    LaidMk(m', s, a, t.e, t.red, b, y.e.node, nil);
    LaidMk(m', s, Mk(s, a, t.e, t.red, b), y.e, y.red, d, Parent(c), nil);
  }

  lemma HasRotated(m: Mem, m': Mem, s: Side, a: Node, x: Entry, xr: bool, b: Node, y: Entry, yr: bool, d: Node,
                   p: Node?)
    requires Has(m, x, xr, s, a, y.node, p) && Has(m, y, yr, s, b, d, x.node) && x.node != y.node
    requires Turned(m, m', x.node, y.node, b, p, s)
    ensures Has(m', x, xr, s, a, b, y.node) && Has(m', y, yr, s, x.node, d, p)
  {
  }

  lemma CtxLaidRelinked(m: Mem, m': Mem, c: Ctx, x: Node, y: Node, nil: Node)
    requires CtxLaid(m, c, x, nil) && CtxDistinct(c) && m.Keys == m'.Keys && x !in CtxNodes(c) && x != nil
    requires forall n <- CtxNodes(c) :: n in m ==>
      m'[n] == if n == Parent(c) then m[n].WithChild(if m[n].left == x then Left else Right, y) else m[n]
    ensures CtxLaid(m', c, y, nil)
  {
    if c.Under? {
      LaidSame(m, m', c.sib, c.e.node, nil);
      CtxLaidSame(m, m', c.up, c.e.node, nil);
    }
  }
}
