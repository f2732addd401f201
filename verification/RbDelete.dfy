/** rbtree_delete and rbtree_min. */
module RbDelete {
  import opened RbShape
  import opened RbHeap
  import opened RbSteps
  import opened RbQueue
  import I = RbInsert
  import F = RbFixup

  // ---------- Paths ----------

  function Join(k: Ctx, c: Ctx): Ctx {
    if k.Top? then c else k.(up := Join(k.up, c))
  }

  lemma {:induction false} DownPath(tree: Tree, m: Mem, t: Shape, k: Ctx, c: Ctx)
    requires At(tree, m, Plug(t, k), c)
    ensures At(tree, m, t, Join(k, c)) && Whole(t, Join(k, c)) == Whole(Plug(t, k), c)
    decreases k
  {
    if k.Under? {
      DownPath(tree, m, Above(t, k), k.up, c);
      Down(tree, m, Above(t, k), Join(k.up, c), k.side);
    }
  }

  lemma {:induction false} GoodPath(t: Shape, k: Ctx, c: Ctx)
    ensures Good(Plug(t, k), c) <==> Good(t, Join(k, c))
    decreases k
  {
    if k.Under? {
      GoodPath(Above(t, k), k.up, c);
      GoodUp(t, Join(k, c));
    }
  }

  /** The path from a node down its left links. */
  predicate Leftmost(k: Ctx) { k.Under? ==> k.side.Left? && Leftmost(k.up) }

  lemma {:induction false} LeftmostEntries(t: Shape, k: Ctx)
    requires Leftmost(k)
    ensures Entries(Plug(t, k)) == Entries(t) + After(k)
    decreases k
  {
    WholePlug(t, k);
    LeftmostBefore(k);
  }

  lemma {:induction false} LeftmostBefore(k: Ctx)
    requires Leftmost(k)
    ensures Before(k) == []
  {
    if k.Under? { LeftmostBefore(k.up); }
  }

  lemma {:induction false} LaidPath(m: Mem, t: Shape, k: Ctx, c: Ctx, nil: Node)
    requires Laid(m, t, Parent(Join(k, c)), nil) && CtxLaid(m, Join(k, c), Ptr(t, nil), nil)
    ensures Laid(m, Plug(t, k), Parent(c), nil) && CtxLaid(m, c, Ptr(Plug(t, k), nil), nil)
    decreases k
  {
    if k.Under? {
      LaidMk(m, k.side, t, k.e, k.red, k.sib, Parent(Join(k.up, c)), nil);
      LaidPath(m, Above(t, k), k.up, c, nil);
    }
  }

  lemma {:induction false} ApartPath(t: Shape, k: Ctx, c: Ctx)
    ensures Apart(Plug(t, k), c) <==> Apart(t, Join(k, c))
    ensures Nodes(Plug(t, k)) + CtxNodes(c) == Nodes(t) + CtxNodes(Join(k, c))
    decreases k
  {
    if k.Under? {
      ApartPath(Above(t, k), k.up, c);
      ApartUp(t, Join(k, c));
    }
  }

  // ---------- Finding nodes ----------

  /** rbtree_node_min: the leftmost node below n. */
  method NodeMin(tree: Tree, n: Node, ghost m: Mem, ghost t: Shape, ghost c: Ctx)
    returns (least: Node, ghost k: Ctx, ghost t': Shape)
    requires At(tree, m, t, c) && t.T? && n == t.e.node
    ensures Leftmost(k) && Plug(t', k) == t && t'.T? && t'.l.E? && least == t'.e.node && At(tree, m, t', Join(k, c))
  {
    least, k, t' := n, Top, t;
    Look(tree, m, t', Join(k, c));
    while least.left != tree.sentinel
      invariant Leftmost(k) && Plug(t', k) == t && t'.T? && least == t'.e.node && At(tree, m, t', Join(k, c))
      invariant least.left == Ptr(t'.l, tree.sentinel) && (t'.l.E? <==> least.left == tree.sentinel)
      decreases t'
    {
      Down(tree, m, t', Join(k, c), Left);
      least := least.left;
      k, t' := Below(t', Left, k), t'.l;
      Look(tree, m, t', Join(k, c));
      if t'.l.T? { Down(tree, m, t', Join(k, c), Left); Look(tree, m, t'.l, Below(t', Left, Join(k, c))); }
    }
  }

  /** rbtree_min: the node at the head of the queue. */
  method Min(tree: Tree) returns (r: Node?)
    requires I.Valid(tree)
    ensures r == if I.Contents(tree) == [] then null else I.Contents(tree)[0].node
  {
    Look(tree, tree.mem, tree.shape, Top);
    if tree.root == tree.sentinel { return null; }
    var least, k, t' := NodeMin(tree, tree.root, tree.mem, tree.shape, Top);
    LeftmostEntries(t', k);
    r := least;
  }

  /** Where a node is. */
  lemma Locate(tree: Tree, m: Mem, t: Shape, c: Ctx, n: Node) returns (t': Shape, c': Ctx)
    requires At(tree, m, t, c) && n in Nodes(t)
    ensures At(tree, m, t', c') && t'.T? && t'.e.node == n && Plug(t', c') == Plug(t, c) && Whole(t', c') == Whole(t, c)
    decreases t
  {
    t', c' := t, c;
    if n != t.e.node {
      var s := if n in Nodes(t.l) then Left else Right;
      Down(tree, m, t, c, s);
      t', c' := Locate(tree, m, Kid(t, s), Below(t, s, c), n);
    }
  }

  // ---------- Taking a node out ----------

  /** The one child that a node with at most one child has. */
  function Rest(t: Shape): Shape
    requires t.T? && (t.l.E? || t.r.E?)
  {
    if t.l.E? then t.r else t.l
  }

  /** The cells after the link from p to `subst` has become a link to `temp`, whose parent becomes `up`. */
  ghost function UnlinkedCell(m: Mem, n: Node, p: Node, side: Side, temp: Node, up: Node): Cell
    requires n in m
  {
    if n == p then m[n].WithChild(side, temp) else if n == temp then m[n].(parent := up) else m[n]
  }

  ghost predicate Unlinked(m: Mem, m': Mem, subst: Node, p: Node, side: Side, temp: Node, up: Node) {
    m'.Keys == m.Keys - {subst} && forall n <- m'.Keys :: m'[n] == UnlinkedCell(m, n, p, side, temp, up)
  }

  method UnlinkCells(tree: Tree, subst: Node, temp: Node, up: Node, ghost m: Mem, ghost p: Node, ghost side: Side)
    returns (ghost m': Mem)
    requires Real(m) && subst in m && p in m && m[subst].parent == p && p != temp
      && (temp in m || temp == tree.sentinel)
    requires subst == m[p].Child(side) && subst != m[p].Child(Other(side)) && tree.sentinel !in m
    modifies p, temp
    ensures Real(m') && Unlinked(m, m', subst, p, side, temp, up) && temp.parent == up
    ensures tree.sentinel.red == old(tree.sentinel.red)
  {
    ghost var m1 := RelinkChild(subst, temp, m, p, side);
    ghost var m2 := AdoptBy(temp, up, tree.sentinel, m1);
    m' := m2 - {subst};
  }

  method RelinkChild(subst: Node, temp: Node, ghost m: Mem, ghost p: Node, ghost side: Side) returns (ghost m': Mem)
    requires Real(m) && subst in m && p in m && m[subst].parent == p
    requires subst == m[p].Child(side) && subst != m[p].Child(Other(side))
    modifies p
    ensures Real(m') && m' == m[p := m[p].WithChild(side, temp)]
  {
    assert Matches(subst, m[subst]) && Matches(p, m[p]);
    if subst == subst.parent.left {
      m' := SetChild(subst.parent, Left, temp, m);
    } else {
      m' := SetChild(subst.parent, Right, temp, m);
    }
  }

  /** A node or the sentinel gets a parent. */
  method AdoptBy(temp: Node, up: Node, nil: Node, ghost m: Mem) returns (ghost m': Mem)
    requires Real(m) && (temp in m || temp == nil) && nil !in m
    modifies temp
    ensures temp.parent == up && nil.red == old(nil.red)
    ensures Real(m') && m' == if temp in m then m[temp := m[temp].(parent := up)] else m
  {
    temp.parent := up;
    m' := if temp in m then m[temp := m[temp].(parent := up)] else m;
  }

  lemma UnlinkedSub(m: Mem, m': Mem, k: Shape, subst: Node, p: Node, side: Side, up: Node, nil: Node)
    requires Laid(m, k, subst, nil) && Distinct(k) && subst !in Nodes(k) && p !in Nodes(k)
    requires Unlinked(m, m', subst, p, side, Ptr(k, nil), up)
    ensures Laid(m', k, up, nil) && Laid(m', k, null, nil)
  {
    LaidMoved(m, m', k, subst, up, nil);
  }

  lemma UnlinkedCtx(m: Mem, m': Mem, c: Ctx, subst: Node, temp: Node, up: Node, nil: Node)
    requires c.Under? && CtxLaid(m, c, subst, nil) && CtxDistinct(c) && subst !in CtxNodes(c) && temp !in CtxNodes(c)
    requires Unlinked(m, m', subst, c.e.node, c.side, temp, up)
    ensures CtxLaid(m', c, temp, nil)
  {
    LaidSame(m, m', c.sib, c.e.node, nil);
    CtxLaidSame(m, m', c.up, c.e.node, nil);
  }

  /** The node at the root of t, with at most one child, is taken out. */
  method Unlink(tree: Tree, subst: Node, temp: Node, up: Node, ghost m: Mem, ghost t: Shape, ghost c: Ctx)
    returns (ghost m': Mem)
    requires At(tree, m, t, c) && c.Under? && t.T? && (t.l.E? || t.r.E?) && subst == t.e.node
    requires temp == Ptr(Rest(t), tree.sentinel)
    modifies c.e.node, temp
    ensures Real(m') && m'.Keys == m.Keys - {subst} && CtxLaid(m', c, temp, tree.sentinel)
    ensures Laid(m', Rest(t), up, tree.sentinel) && Laid(m', Rest(t), null, tree.sentinel)
    ensures temp.parent == up && !tree.sentinel.red && Apart(Rest(t), c) && m'.Keys == Nodes(Rest(t)) + CtxNodes(c)
  {
    CanUnlink(tree, m, t, c);
    m' := UnlinkCells(tree, subst, temp, up, m, c.e.node, c.side);
    UnlinkedSub(m, m', Rest(t), subst, c.e.node, c.side, up, tree.sentinel);
    UnlinkedCtx(m, m', c, subst, temp, up, tree.sentinel);
  }

  lemma CanUnlink(tree: Tree, m: Mem, t: Shape, c: Ctx)
    requires At(tree, m, t, c) && c.Under? && t.T? && (t.l.E? || t.r.E?)
    ensures var temp, subst, p := Ptr(Rest(t), tree.sentinel), t.e.node, c.e.node;
      && subst in m && p in m && m[subst].parent == p && p != temp && (temp in m || temp == tree.sentinel)
      && subst == m[p].Child(c.side) && subst != m[p].Child(Other(c.side)) && tree.sentinel !in m
      && temp !in CtxNodes(c)
    ensures Laid(m, Rest(t), t.e.node, tree.sentinel) && Distinct(Rest(t)) && t.e.node !in Nodes(Rest(t))
    ensures c.e.node !in Nodes(Rest(t)) && Apart(Rest(t), c) && Nodes(t) == Nodes(Rest(t)) + {t.e.node}
  {
  }

  // ---------- Putting a node in the place of another ----------

  ghost function PutCell(m: Mem, node: Node, e: Entry): Cell
    requires node in m
  {
    m[node].(key := e.key, data := e.data)
  }

  /** The cells after e.node has taken the place of `node`, below p and above x and y. */
  ghost function ReplacedCell(m: Mem, n: Node, node: Node, e: Entry, p: Node?, x: Node, y: Node): Cell
    requires node in m && (n in m || n == e.node)
  {
    if n == e.node then PutCell(m, node, e)
    else if n == p then m[n].WithChild(if m[n].left == node then Left else Right, e.node)
    else if n == x || n == y then m[n].(parent := e.node)
    else m[n]
  }

  ghost predicate Replaced(m: Mem, m': Mem, node: Node, e: Entry, p: Node?, x: Node, y: Node)
    requires node in m
  {
    && m'.Keys == m.Keys + {e.node} - {node}
    && forall n <- m'.Keys :: m'[n] == ReplacedCell(m, n, node, e, p, x, y)
  }

  method CopyLinks(subst: Node, node: Node, ghost m: Mem, ghost e: Entry) returns (ghost m': Mem)
    requires Real(m) && node in m && subst !in m && e == Entry(subst, subst.key, subst.data)
    modifies subst
    ensures Real(m') && m' == m[subst := PutCell(m, node, e)]
  {
    assert Matches(node, m[node]);
    subst.left := node.left;
    subst.right := node.right;
    subst.parent := node.parent;
    subst.red := node.red;
    m' := m[subst := PutCell(m, node, e)];
  }

  /** A child of the new node is told about it, unless it is the sentinel. */
  method Inform(child: Node, subst: Node, nil: Node, ghost m: Mem) returns (ghost m': Mem)
    requires Real(m) && (child in m || child == nil) && nil !in m
    modifies if child == nil then {} else {child}
    ensures Real(m') && m' == if child in m then m[child := m[child].(parent := subst)] else m
  {
    m' := m;
    if child != nil { m' := SetParent(child, subst, m); }
  }

  method ReplaceCells(tree: Tree, node: Node, subst: Node, ghost m: Mem, ghost e: Entry, ghost p: Node?, ghost x: Node,
                      ghost y: Node)
    returns (ghost m': Mem)
    requires Real(m) && CanReplace(m, node, subst, p, x, y, tree.sentinel) && e == Entry(subst, subst.key, subst.data)
    requires p == null <==> node == tree.root
    modifies tree`root, m.Keys, subst
    ensures Real(m') && Replaced(m, m', node, e, p, x, y)
    ensures tree.root == if p == null then subst else old(tree.root)
  {
    ghost var m1, m2 := Place(tree, node, subst, m, e, p);
    var left, right := subst.left, subst.right;
    assert left == x && right == y && x in m2.Keys + {tree.sentinel} && y in m2.Keys + {tree.sentinel};
    ghost var m3 := InformBoth(left, right, subst, tree.sentinel, m2);
    m' := m3 - {node};
    ReplacedSteps(m, m1, m2, m', node, e, p, x, y);
  }

  method Place(tree: Tree, node: Node, subst: Node, ghost m: Mem, ghost e: Entry, ghost p: Node?)
    returns (ghost m1: Mem, ghost m2: Mem)
    requires Real(m) && node in m && subst !in m && e == Entry(subst, subst.key, subst.data)
    requires p == null <==> node == tree.root
    requires p != null ==> p in m && p == m[node].parent && p != node && (m[p].left == node || m[p].right == node)
    modifies tree`root, if p == null then {} else {p}, subst
    ensures m1 == m[subst := PutCell(m, node, e)] && m2 == Relinked(m1, p, node, subst) && Real(m2)
    ensures subst.left == m[node].left && subst.right == m[node].right && m2.Keys == m.Keys + {subst}
    ensures tree.root == if p == null then subst else old(tree.root)
  {
    m1 := CopyLinks(subst, node, m, e);
    assert Matches(node, m1[node]);
    m2 := Relink(tree, node, subst, p, m1);
    assert Matches(subst, m2[subst]);
  }

  method InformBoth(x: Node, y: Node, subst: Node, nil: Node, ghost m: Mem) returns (ghost m': Mem)
    requires Real(m) && (x in m || x == nil) && (y in m || y == nil) && nil !in m
    modifies {x, y} - {nil}
    ensures Real(m') && m'.Keys == m.Keys
    ensures forall n <- m.Keys :: m'[n] == if n == x || n == y then m[n].(parent := subst) else m[n]
  {
    m' := Inform(x, subst, nil, m);
    m' := Inform(y, subst, nil, m');
  }

  ghost predicate CanReplace(m: Mem, node: Node, subst: Node, p: Node?, x: Node, y: Node, nil: Node) {
    && node in m && subst !in m && nil !in m && m[node].left == x && m[node].right == y && x != node && y != node
    && (x in m || x == nil) && (y in m || y == nil) && nil != subst
    && (p != null ==>
          && p in m && p == m[node].parent && p != node && p != x && p != y
          && (m[p].left == node || m[p].right == node))
  }

  lemma ReplacedSteps(m: Mem, m1: Mem, m2: Mem, m3: Mem, node: Node, e: Entry, p: Node?, x: Node, y: Node)
    requires node in m && e.node !in m && (p != null ==> p in m && p != x && p != y && p != node) && x != e.node
      && y != e.node
    requires m1 == m[e.node := PutCell(m, node, e)] && m2 == Relinked(m1, p, node, e.node)
    requires m3.Keys == m2.Keys - {node}
    requires forall n <- m3.Keys :: m3[n] == if n == x || n == y then m2[n].(parent := e.node) else m2[n]
    ensures Replaced(m, m3, node, e, p, x, y)
  {
  }

  /** A subtree, its root taken out, on which the root's place is taken by e. */
  lemma ReplacedLaid(m: Mem, m': Mem, l: Shape, r: Shape, node: Node, e: Entry, red: bool, p: Node?, nil: Node)
    requires node in m && Laid(m, l, node, nil) && Laid(m, r, null, nil) && Distinct(l) && Distinct(r)
      && Nodes(l) !! Nodes(r)
    requires Replaced(m, m', node, e, p, Ptr(l, nil), Ptr(r, nil))
    requires node !in Nodes(l) && node !in Nodes(r) && (p != null ==> p !in Nodes(l) && p !in Nodes(r))
    requires e.node !in Nodes(l) && e.node !in Nodes(r) && nil !in Nodes(l) && nil !in Nodes(r)
    ensures Laid(m', l, e.node, nil) && Laid(m', r, e.node, nil)
  {
    PtrIn(l, nil);
    PtrIn(r, nil);
    LaidMoved(m, m', l, node, e.node, nil);
    LaidMoved(m, m', r, null, e.node, nil);
  }

  lemma PtrIn(t: Shape, nil: Node)
    ensures Ptr(t, nil) == nil || Ptr(t, nil) in Nodes(t)
  {
  }

  lemma ReplacedCtx(m: Mem, m': Mem, c: Ctx, node: Node, e: Entry, x: Node, y: Node, nil: Node)
    requires node in m && CtxLaid(m, c, node, nil) && CtxDistinct(c) && node !in CtxNodes(c) && node != nil
    requires Replaced(m, m', node, e, Parent(c), x, y) && e.node !in CtxNodes(c) && x !in CtxNodes(c)
      && y !in CtxNodes(c)
    ensures CtxLaid(m', c, e.node, nil)
  {
    if c.Under? {
      LaidSame(m, m', c.sib, c.e.node, nil);
      CtxLaidSame(m, m', c.up, c.e.node, nil);
    }
  }

  /** The tree in memory, but for the parent link of r. */
  ghost predicate Loose(tree: Tree, m: Mem, l: Shape, e: Entry, red: bool, r: Shape, c: Ctx)
    reads tree`root, tree`sentinel, tree.sentinel, m.Keys
  {
    && Real(m) && m.Keys == Nodes(l) + Nodes(r) + {e.node} + CtxNodes(c) && Apart(T(l, e, red, r), c)
    && tree.sentinel !in m && !tree.sentinel.red && tree.root == Ptr(Plug(T(l, e, red, r), c), tree.sentinel)
    && Has(m, e, red, Left, Ptr(l, tree.sentinel), Ptr(r, tree.sentinel), Parent(c))
    && Laid(m, l, e.node, tree.sentinel) && Laid(m, r, null, tree.sentinel) && CtxLaid(m, c, e.node, tree.sentinel)
  }

  method Replace(tree: Tree, node: Node, subst: Node,
                 ghost m: Mem, ghost l: Shape, ghost e: Entry, ghost red: bool, ghost r: Shape, ghost c: Ctx,
                 ghost e': Entry)
    returns (ghost m': Mem)
    requires Loose(tree, m, l, e, red, r, c) && node == e.node && subst !in m && subst != tree.sentinel
    requires e' == Entry(subst, subst.key, subst.data)
    modifies tree`root, m.Keys, subst
    ensures m'.Keys == m.Keys + {subst} - {node}
    ensures At(tree, m', T(l, e', red, r), c)
  {
    CanReplaceHere(tree, m, l, e, red, r, c, subst);
    m' := ReplaceCells(tree, node, subst, m, e', Parent(c), Ptr(l, tree.sentinel), Ptr(r, tree.sentinel));
    ReplacedTree(m, m', l, e, red, r, c, e', tree.sentinel);
  }

  lemma CanReplaceHere(tree: Tree, m: Mem, l: Shape, e: Entry, red: bool, r: Shape, c: Ctx, subst: Node)
    requires Loose(tree, m, l, e, red, r, c) && subst !in m && subst != tree.sentinel
    ensures CanReplace(m, e.node, subst, Parent(c), Ptr(l, tree.sentinel), Ptr(r, tree.sentinel), tree.sentinel)
    ensures Parent(c) == null <==> e.node == tree.root
  {
    PlugRoot(T(l, e, red, r), c);
  }

  lemma ReplacedApart(l: Shape, e: Entry, red: bool, r: Shape, c: Ctx, e': Entry)
    requires Apart(T(l, e, red, r), c) && e'.node !in Nodes(l) + Nodes(r) + CtxNodes(c)
    ensures Apart(T(l, e', red, r), c) && Distinct(l) && Distinct(r) && Nodes(l) !! Nodes(r) && CtxDistinct(c)
    ensures e.node !in Nodes(l) && e.node !in Nodes(r) && e.node !in CtxNodes(c)
    ensures Nodes(l) !! CtxNodes(c) && Nodes(r) !! CtxNodes(c)
  {
  }

  lemma {:induction false} ReplacedTree(m: Mem, m': Mem, l: Shape, e: Entry, red: bool, r: Shape, c: Ctx, e': Entry,
                                        nil: Node)
    requires Apart(T(l, e, red, r), c) && e'.node !in Nodes(l) + Nodes(r) + {e.node} + CtxNodes(c)
    requires nil !in Nodes(l) && nil !in Nodes(r) && nil !in CtxNodes(c) && nil != e.node
    requires Has(m, e, red, Left, Ptr(l, nil), Ptr(r, nil), Parent(c))
    requires Laid(m, l, e.node, nil) && Laid(m, r, null, nil) && CtxLaid(m, c, e.node, nil)
    requires Replaced(m, m', e.node, e', Parent(c), Ptr(l, nil), Ptr(r, nil))
    requires m.Keys == Nodes(l) + Nodes(r) + {e.node} + CtxNodes(c)
    ensures Apart(T(l, e', red, r), c) && m'.Keys == Nodes(T(l, e', red, r)) + CtxNodes(c)
    ensures Laid(m', T(l, e', red, r), Parent(c), nil) && CtxLaid(m', c, e'.node, nil)
    ensures Ptr(Plug(T(l, e', red, r), c), nil) == if c.Top? then e'.node else Ptr(Plug(T(l, e, red, r), c), nil)
  {
    ReplacedApart(l, e, red, r, c, e');
    ReplacedLaid(m, m', l, r, e.node, e', red, Parent(c), nil);
    PtrIn(l, nil);
    PtrIn(r, nil);
    ReplacedCtx(m, m', c, e.node, e', Ptr(l, nil), Ptr(r, nil), nil);
    if c.Under? { PlugPtr(T(l, e, red, r), T(l, e', red, r), c, nil); }
  }

  // ---------- Deletion ----------

  /** What is left in order when the root of t is gone. */
  function Gap(t: Shape, c: Ctx): seq<Entry>
    requires t.T?
  {
    Before(c) + (Entries(t.l) + Entries(t.r)) + After(c)
  }

  lemma RestGap(t: Shape, c: Ctx)
    requires t.T? && (t.l.E? || t.r.E?)
    ensures Whole(Rest(t), c) == Gap(t, c)
  {
    if t.l.E? {
      assert [] + Entries(t.r) == Entries(t.r);
    } else {
      assert Entries(t.l) + [] == Entries(t.l);
    }
  }

  /** Without a red node nothing is missing; without a black one the subtree is short. */
  lemma RestGood(t: Shape, c: Ctx)
    requires Good(t, c) && t.T? && (t.l.E? || t.r.E?)
    ensures if t.red then Good(Rest(t), c) else F.Short(Rest(t), c)
  {
    var k := Rest(t);
    assert Calm(k) && (k.T? ==> Calm(k.l) && Calm(k.r));
  }

  /** A node with at most one child, below another node, goes. */
  method RemoveOne(tree: Tree, node: Node, temp: Node, ghost m: Mem, ghost t: Shape, ghost c: Ctx)
    returns (ghost m': Mem)
    requires At(tree, m, t, c) && c.Under? && t.T? && (t.l.E? || t.r.E?) && node == t.e.node
      && temp == Ptr(Rest(t), tree.sentinel)
    modifies c.e.node, temp
    ensures At(tree, m', Rest(t), c) && m'.Keys == m.Keys - {node} && temp.parent == c.e.node
  {
    Look(tree, m, t, c);
    m' := Unlink(tree, node, temp, node.parent, m, t, c);
    PlugPtr(t, Rest(t), c, tree.sentinel);
  }

  /** The root, with at most one child, goes. */
  method RemoveRoot(tree: Tree, temp: Node, ghost m: Mem, ghost t: Shape) returns (ghost m': Mem)
    requires At(tree, m, t, Top) && t.T? && (t.l.E? || t.r.E?) && temp == Ptr(Rest(t), tree.sentinel)
    modifies tree`root, temp
    ensures At(tree, m', F.Black(Rest(t)), Top) && m'.Keys == m.Keys - {t.e.node}
  {
    tree.root := temp;
    m' := m - {t.e.node};
    RootGone(m, m', t, tree.sentinel);
    m' := F.Blacken(tree, temp, m', Rest(t), Top);
  }

  lemma RootGone(m: Mem, m': Mem, t: Shape, nil: Node)
    requires Laid(m, t, null, nil) && t.T? && (t.l.E? || t.r.E?) && Distinct(t) && m.Keys == Nodes(t)
      && m' == m - {t.e.node}
    ensures Laid(m', Rest(t), null, nil) && Distinct(Rest(t)) && m'.Keys == Nodes(Rest(t))
  {
    LaidSame(m, m', Rest(t), t.e.node, nil);
  }

  /** The path below a node after that node has been replaced. */
  function Renamed(k: Ctx, e: Entry, t: Shape, c: Ctx): Ctx
    requires t.T?
  {
    Join(k, Under(Right, e, t.red, t.l, c))
  }

  /** The least node of the right subtree is out; the parent link of what is left of it may be wrong. */
  lemma {:induction false} Loosened(tree: Tree, m: Mem, t: Shape, c: Ctx, k: Ctx, r: Shape, up: Node)
    requires t.T? && Real(m) && tree.sentinel !in m && !tree.sentinel.red && tree.root == Ptr(Plug(t, c), tree.sentinel)
    requires var c2 := Join(k, Below(t, Right, c));
      && Apart(r, c2) && m.Keys == Nodes(r) + CtxNodes(c2)
      && CtxLaid(m, c2, Ptr(r, tree.sentinel), tree.sentinel)
      && Laid(m, r, null, tree.sentinel) && Laid(m, r, up, tree.sentinel) && (k.Under? ==> up == k.e.node)
    ensures Loose(tree, m, t.l, t.e, t.red, Plug(r, k), c)
  {
    var b, nil := Below(t, Right, c), tree.sentinel;
    LoosenedApart(t, c, k, r);
    LoosenedLaid(m, t, c, k, r, up, nil);
    if c.Under? { PlugPtr(t, T(t.l, t.e, t.red, Plug(r, k)), c, nil); }
  }

  lemma {:induction false} LoosenedApart(t: Shape, c: Ctx, k: Ctx, r: Shape)
    requires t.T? && Apart(r, Join(k, Below(t, Right, c)))
    ensures Apart(T(t.l, t.e, t.red, Plug(r, k)), c)
    ensures Nodes(t.l) + Nodes(Plug(r, k)) + {t.e.node} + CtxNodes(c) ==
      Nodes(r) + CtxNodes(Join(k, Below(t, Right, c)))
  {
    ApartPath(r, k, Below(t, Right, c));
    ApartUp(Plug(r, k), Below(t, Right, c));
  }

  lemma {:induction false} LoosenedLaid(m: Mem, t: Shape, c: Ctx, k: Ctx, r: Shape, up: Node, nil: Node)
    requires t.T? && CtxLaid(m, Join(k, Below(t, Right, c)), Ptr(r, nil), nil) && Laid(m, r, null, nil)
      && Laid(m, r, up, nil)
    requires k.Under? ==> up == k.e.node
    ensures Has(m, t.e, t.red, Left, Ptr(t.l, nil), Ptr(Plug(r, k), nil), Parent(c)) && Laid(m, t.l, t.e.node, nil)
    ensures Laid(m, Plug(r, k), null, nil) && CtxLaid(m, c, t.e.node, nil)
  {
    var b := Below(t, Right, c);
    if k.Under? {
      assert Parent(Join(k, b)) == up;
      LaidPath(m, r, k, b, nil);
    }
    LooseParts(m, t, c, Plug(r, k), nil);
  }

  lemma {:induction false} LooseParts(m: Mem, t: Shape, c: Ctx, r: Shape, nil: Node)
    requires t.T? && CtxLaid(m, Below(t, Right, c), Ptr(r, nil), nil)
    requires Laid(m, r, null, nil) || Laid(m, r, t.e.node, nil)
    ensures Has(m, t.e, t.red, Left, Ptr(t.l, nil), Ptr(r, nil), Parent(c)) && Laid(m, t.l, t.e.node, nil)
    ensures Laid(m, r, null, nil) && CtxLaid(m, c, t.e.node, nil)
  {
  }

  /** A node with two children goes: the least node of its right subtree takes its place. */
  method RemoveTwo(tree: Tree, node: Node, subst: Node, temp: Node,
                   ghost m: Mem, ghost t: Shape, ghost c: Ctx, ghost k: Ctx, ghost ts: Shape)
    returns (ghost m': Mem)
    requires At(tree, m, t, c) && t.T? && node == t.e.node && At(tree, m, ts, Join(k, Below(t, Right, c)))
    requires Plug(ts, k) == t.r && ts.T? && ts.l.E? && subst == ts.e.node && temp == Ptr(ts.r, tree.sentinel)
    modifies tree`root, m.Keys, temp
    ensures var c' := Renamed(k, ts.e, t, c);
      At(tree, m', ts.r, c') && m'.Keys == m.Keys - {node} && temp.parent == c'.e.node
  {
    Look(tree, m, ts, Join(k, Below(t, Right, c)));
    assert m.Keys - {subst} + {subst} == m.Keys;
    ghost var m1 := TakeOut(tree, node, subst, temp, m, t, c, k, ts);
    m' := Replace(tree, node, subst, m1, t.l, t.e, t.red, Plug(ts.r, k), c, ts.e);
    BackDown(tree, m', t, c, k, ts);
  }

  lemma {:induction false} BackDown(tree: Tree, m: Mem, t: Shape, c: Ctx, k: Ctx, ts: Shape)
    requires t.T? && ts.T? && At(tree, m, T(t.l, ts.e, t.red, Plug(ts.r, k)), c)
    ensures var c' := Renamed(k, ts.e, t, c);
      && At(tree, m, ts.r, c') && c'.Under? && c'.e.node == (if k.Top? then ts.e.node else k.e.node)
      && (ts.r.T? ==> ts.r.e.node.parent == c'.e.node)
  {
    var t' := T(t.l, ts.e, t.red, Plug(ts.r, k));
    Down(tree, m, t', c, Right);
    DownPath(tree, m, ts.r, k, Below(t', Right, c));
    PathParent(k, Below(t', Right, c));
    Look(tree, m, ts.r, Renamed(k, ts.e, t, c));
  }

  method TakeOut(tree: Tree, node: Node, subst: Node, temp: Node,
                 ghost m: Mem, ghost t: Shape, ghost c: Ctx, ghost k: Ctx, ghost ts: Shape)
    returns (ghost m': Mem)
    requires At(tree, m, t, c) && t.T? && node == t.e.node && At(tree, m, ts, Join(k, Below(t, Right, c)))
    requires Plug(ts, k) == t.r && ts.T? && ts.l.E? && subst == ts.e.node && temp == Ptr(ts.r, tree.sentinel)
    modifies m.Keys - {subst}, temp
    ensures Loose(tree, m', t.l, t.e, t.red, Plug(ts.r, k), c) && m'.Keys == m.Keys - {subst}
    ensures (temp.parent == if k.Top? then subst else k.e.node) && ts.e == Entry(subst, subst.key, subst.data)
  {
    ghost var c2 := Join(k, Below(t, Right, c));
    Look(tree, m, ts, c2);
    PathParent(k, Below(t, Right, c));
    var up := if subst.parent == node then subst else subst.parent;
    m' := Unlink(tree, subst, temp, up, m, ts, c2);
    Loosened(tree, m', t, c, k, ts.r, up);
  }

  /** The parent at the lower end of a path, which is not the node above its upper end. */
  lemma {:induction false} PathParent(k: Ctx, b: Ctx)
    requires b.Under?
    ensures Join(k, b).Under? && Join(k, b).e == if k.Top? then b.e else k.e
    ensures b.e.node in CtxNodes(Join(k, b))
    ensures k.Under? && CtxDistinct(Join(k, b)) ==> k.e.node != b.e.node
  {
    if k.Under? { PathParent(k.up, b); }
  }

  lemma {:induction false} TwoGap(t: Shape, c: Ctx, k: Ctx, ts: Shape)
    requires t.T? && ts.T? && ts.l.E? && Leftmost(k) && Plug(ts, k) == t.r
    ensures Whole(ts.r, Renamed(k, ts.e, t, c)) == Gap(t, c)
  {
    LeftmostEntries(ts, k);
    LeftmostEntries(ts.r, k);
    PathWhole(ts.r, k, Under(Right, ts.e, t.red, t.l, c));
    WholeUp(Plug(ts.r, k), Under(Right, ts.e, t.red, t.l, c));
    var l, r, a := Entries(t.l), Entries(ts.r), After(k);
    assert Entries(ts) == [ts.e] + r by { assert [] + [ts.e] + r == [ts.e] + r; }
    assert l + [ts.e] + (r + a) == l + ([ts.e] + r + a);
  }

  lemma {:induction false} PathWhole(t: Shape, k: Ctx, c: Ctx)
    ensures Whole(t, Join(k, c)) == Whole(Plug(t, k), c)
    decreases k
  {
    if k.Under? {
      WholeUp(t, Join(k, c));
      PathWhole(Above(t, k), k.up, c);
    }
  }

  lemma {:induction false} TwoGood(t: Shape, c: Ctx, k: Ctx, ts: Shape)
    requires Good(t, c) && t.T? && ts.T? && ts.l.E? && Plug(ts, k) == t.r
    ensures var c' := Renamed(k, ts.e, t, c);
      if ts.red then Good(ts.r, c') else F.Short(ts.r, c')
  {
    var b, b' := Below(t, Right, c), Under(Right, ts.e, t.red, t.l, c);
    GoodUp(t.r, b);
    GoodPath(ts, k, b);
    RestGood(ts, Join(k, b));
    SameColours(k, b, b', Height(ts));
  }

  /** Heights and colours around a hole do not depend on the entry at the upper end of the path. */
  lemma {:induction false} SameColours(k: Ctx, b: Ctx, b': Ctx, h: nat)
    requires b.Under? && b'.Under? && b' == b.(e := b'.e)
    ensures Fits(Join(k, b), h) <==> Fits(Join(k, b'), h)
    ensures Quiet(Join(k, b)) <==> Quiet(Join(k, b'))
    ensures RedOk(Join(k, b)) <==> RedOk(Join(k, b'))
    decreases k
  {
    if k.Under? { SameColours(k.up, b, b', h + Weight(k.red)); }
  }

  /** Everything but the root entry of t stays, in order. */
  lemma {:induction false} DequeueGap(t: Shape, c: Ctx)
    requires t.T? && Apart(t, c)
    ensures Dequeue(Whole(t, c), t.e.node) == Gap(t, c)
  {
    var b, l, r, a := Before(c), Entries(t.l), Entries(t.r), After(c);
    EntriesIn(t.l);
    BeforeIn(c);
    assert b + (l + [t.e] + r) + a == (b + l) + [t.e] + (r + a);
    DequeueBetween(b + l, t.e, r + a);
    assert b + l + (r + a) == b + (l + r) + a;
  }

  lemma {:induction false} EntriesIn(t: Shape)
    ensures forall i :: 0 <= i < |Entries(t)| ==> Entries(t)[i].node in Nodes(t)
  {
    if t.T? {
      EntriesIn(t.l);
      EntriesIn(t.r);
    }
  }

  lemma {:induction false} BeforeIn(c: Ctx)
    ensures forall i :: 0 <= i < |Before(c)| ==> Before(c)[i].node in CtxNodes(c)
  {
    if c.Under? {
      EntriesIn(c.sib);
      BeforeIn(c.up);
    }
  }

  /** A node other than the root, or one with two children, goes; (x, c') is where a black node may be missing. */
  method Remove(tree: Tree, node: Node, subst: Node, temp: Node,
                ghost m: Mem, ghost t: Shape, ghost c: Ctx, ghost k: Ctx, ghost ts: Shape)
    returns (ghost m': Mem, ghost x: Shape, ghost c': Ctx)
    requires At(tree, m, t, c) && t.T? && node == t.e.node && Good(t, c) && subst in m
    requires subst == node ==> c.Under? && (t.l.E? || t.r.E?) && temp == Ptr(Rest(t), tree.sentinel) && ts == t
    requires subst != node ==>
      && At(tree, m, ts, Join(k, Below(t, Right, c))) && Plug(ts, k) == t.r && Leftmost(k)
      && ts.T? && ts.l.E? && subst == ts.e.node && temp == Ptr(ts.r, tree.sentinel)
    modifies tree`root, m.Keys, temp
    ensures At(tree, m', x, c') && m'.Keys == m.Keys - {node} && temp == Ptr(x, tree.sentinel)
      && Whole(x, c') == Gap(t, c)
    ensures c'.Under? && temp.parent == c'.e.node && (if ts.red then Good(x, c') else F.Short(x, c'))
  {
    if subst == node {
      RestGood(t, c);
      RestGap(t, c);
      ParentIn(tree, m, t, c);
      m' := RemoveOne(tree, node, temp, m, t, c);
      x, c' := Rest(t), c;
    } else {
      TwoGood(t, c, k, ts);
      TwoGap(t, c, k, ts);
      m' := RemoveTwo(tree, node, subst, temp, m, t, c, k, ts);
      x, c' := ts.r, Renamed(k, ts.e, t, c);
      PathParent(k, Under(Right, ts.e, t.red, t.l, c));
    }
  }

  lemma ParentIn(tree: Tree, m: Mem, t: Shape, c: Ctx)
    requires At(tree, m, t, c) && c.Under?
    ensures c.e.node in m
  {
  }

  /** The node that goes in place of `node`, and its only child. */
  method Choose(tree: Tree, node: Node, ghost m: Mem, ghost t: Shape, ghost c: Ctx)
    returns (subst: Node, temp: Node, ghost k: Ctx, ghost ts: Shape)
    requires At(tree, m, t, c) && t.T? && node == t.e.node
    ensures subst in m && ts.T? && subst.red == ts.red && (subst == tree.root ==> subst == node && c.Top?)
    ensures subst == node ==> (t.l.E? || t.r.E?) && temp == Ptr(Rest(t), tree.sentinel) && ts == t
    ensures (subst == node && c.Top? ==> subst == tree.root) && temp in m.Keys + {tree.sentinel} && node in m
    ensures subst != node ==>
      && At(tree, m, ts, Join(k, Below(t, Right, c))) && Plug(ts, k) == t.r && Leftmost(k)
      && ts.T? && ts.l.E? && subst == ts.e.node && temp == Ptr(ts.r, tree.sentinel)
  {
    Look(tree, m, t, c);
    KidsIn(tree, m, t, c);
    k, ts := Top, t;
    if node.left == tree.sentinel {
      temp, subst := node.right, node;
    } else if node.right == tree.sentinel {
      temp, subst := node.left, node;
    } else {
      Down(tree, m, t, c, Right);
      subst, k, ts := NodeMin(tree, node.right, m, t.r, Below(t, Right, c));
      PathParent(k, Below(t, Right, c));
      Look(tree, m, ts, Join(k, Below(t, Right, c)));
      temp := subst.right;
      KidsIn(tree, m, ts, Join(k, Below(t, Right, c)));
    }
  }

  lemma KidsIn(tree: Tree, m: Mem, t: Shape, c: Ctx)
    requires At(tree, m, t, c) && t.T?
    ensures t.l.E? <==> Ptr(t.l, tree.sentinel) == tree.sentinel
    ensures t.r.E? <==> Ptr(t.r, tree.sentinel) == tree.sentinel
    ensures Ptr(t.l, tree.sentinel) in m.Keys + {tree.sentinel} && Ptr(t.r, tree.sentinel) in m.Keys + {tree.sentinel}
  {
    PtrIn(t.l, tree.sentinel);
    PtrIn(t.r, tree.sentinel);
  }

  /** rbtree_delete, up to the point where the shape is known. */
  method TakeAway(tree: Tree, node: Node, ghost m: Mem, ghost t: Shape, ghost c: Ctx)
    returns (ghost m': Mem, ghost w: Shape)
    requires At(tree, m, t, c) && t.T? && node == t.e.node && Good(t, c)
    modifies tree`root, m.Keys, tree.sentinel
    ensures At(tree, m', w, Top) && RedBlack(w) && m'.Keys == m.Keys - {node} && Entries(w) == Gap(t, c)
    ensures node.left == null && node.right == null && node.parent == null && node.key == 0 && node.data == 0
  {
    var subst, temp, k, ts := Choose(tree, node, m, t, c);
    if subst == tree.root {
      m', w := TakeRoot(tree, node, temp, m, t);
    } else {
      var red := subst.red;
      ghost var x, c';
      m', x, c' := Remove(tree, node, subst, temp, m, t, c, k, ts);
      m', w := Finish(tree, node, temp, red, m', x, c');
    }
  }

  method Finish(tree: Tree, node: Node, temp: Node, red: bool, ghost m: Mem, ghost x: Shape, ghost c: Ctx)
    returns (ghost m': Mem, ghost w: Shape)
    requires At(tree, m, x, c) && c.Under? && node !in m && node != tree.sentinel && temp == Ptr(x, tree.sentinel)
    requires temp.parent == c.e.node && (if red then Good(x, c) else F.Short(x, c))
    modifies tree`root, m.Keys, tree.sentinel, node
    ensures At(tree, m', w, Top) && RedBlack(w) && m'.Keys == m.Keys && Entries(w) == Whole(x, c)
    ensures node.left == null && node.right == null && node.parent == null && node.key == 0 && node.data == 0
  {
    InitNode(node);
    m' := m;
    if red {
      w := Plug(x, c);
      ToTop(tree, m, x, c);
      GoodPlug(x, c);
    } else {
      m', w := F.Fixup(tree, temp, m, x, c);
    }
  }

  method TakeRoot(tree: Tree, node: Node, temp: Node, ghost m: Mem, ghost t: Shape)
    returns (ghost m': Mem, ghost w: Shape)
    requires At(tree, m, t, Top) && t.T? && node == t.e.node && Good(t, Top)
    requires (t.l.E? || t.r.E?) && temp == Ptr(Rest(t), tree.sentinel)
    modifies tree`root, m.Keys, temp
    ensures At(tree, m', w, Top) && RedBlack(w) && m'.Keys == m.Keys - {node} && Entries(w) == Gap(t, Top)
    ensures node.left == null && node.right == null && node.parent == null && node.key == 0 && node.data == 0
  {
    RestGood(t, Top);
    RestGap(t, Top);
    F.Repaired(Rest(t), Top);
    m' := RemoveRoot(tree, temp, m, t);
    w := F.Black(Rest(t));
    InitNode(node);
    WholeTop(w);
    WholeTop(Rest(t));
  }

  /** rbtree_delete. */
  method Delete(tree: Tree, node: Node)
    requires I.Valid(tree) && node in tree.mem
    modifies tree`root, tree`shape, tree`mem, tree.mem.Keys, tree.sentinel
    ensures I.Valid(tree) && tree.mem.Keys == old(tree.mem.Keys) - {node}
    ensures I.Contents(tree) == Dequeue(old(I.Contents(tree)), node)
    ensures node.left == null && node.right == null && node.parent == null && node.key == 0 && node.data == 0
  {
    ghost var was := I.Contents(tree);
    ghost var t, c := Locate(tree, tree.mem, tree.shape, Top, node);
    WholeTop(tree.shape);
    GoodPlug(t, c);
    DequeueGap(t, c);
    DequeueSorted(was, node);
    ghost var m, w := TakeAway(tree, node, tree.mem, t, c);
    tree.mem, tree.shape := m, w;
  }
}
