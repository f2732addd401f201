/** The fixup after a deletion from the tree. */
module RbFixup {
  import opened RbShape
  import opened RbHeap
  import opened RbSteps

  // ---------- The fixup, on shapes ----------

  /** One black node is missing on the way through t; nothing else is wrong, once the root of t is black. */
  predicate Short(t: Shape, c: Ctx) {
    Balanced(t) && (t.T? ==> Calm(t.(red := false))) && Fits(c, Height(t) + 1) && Quiet(c)
  }

  /** The sibling of a short subtree is a node. */
  lemma HasSibling(t: Shape, c: Ctx)
    requires Short(t, c) && c.Under?
    ensures c.sib.T?
  {
  }

  /** A red sibling is rotated above the parent; the parent becomes red. */
  function RedSibling(c: Ctx): Ctx
    requires c.Under? && c.sib.T?
  {
    var s, w := c.side, c.sib;
    Under(s, c.e, true, Kid(w, s), Under(s, w.e, false, Kid(w, Other(s)), c.up))
  }

  lemma RedSiblingShort(t: Shape, c: Ctx)
    requires Short(t, c) && c.Under? && Red(c.sib)
    ensures Short(t, RedSibling(c)) && !Red(RedSibling(c).sib) && RedSibling(c).sib.T?
  {
  }

  /** A black sibling with black children turns red; the missing node is missing one level higher. */
  lemma BlackSiblingShort(t: Shape, c: Ctx)
    requires Short(t, c) && !Red(t) && c.Under? && c.sib.T? && !c.sib.red && !Red(c.sib.l) && !Red(c.sib.r)
    ensures Short(Mk(c.side, t, c.e, c.red, c.sib.(red := true)), c.up)
  {
  }

  /** A black sibling whose near child is red: that child becomes the sibling. */
  function NearSibling(c: Ctx): Ctx
    requires c.Under? && c.sib.T? && Kid(c.sib, c.side).T?
  {
    var s, w := c.side, c.sib;
    var n := Kid(w, s);
    c.(sib := Mk(s, Kid(n, s), n.e, false, Mk(s, Kid(n, Other(s)), w.e, true, Kid(w, Other(s)))))
  }

  lemma NearSiblingShort(t: Shape, c: Ctx)
    requires Short(t, c) && c.Under? && c.sib.T? && !c.sib.red && Red(Kid(c.sib, c.side))
      && !Red(Kid(c.sib, Other(c.side)))
    ensures Short(t, NearSibling(c)) && !Red(NearSibling(c).sib) && Red(Kid(NearSibling(c).sib, Other(c.side)))
  {
    var s, w := c.side, c.sib;
    var n := Kid(w, s);
    var r := Mk(s, Kid(n, Other(s)), w.e, true, Kid(w, Other(s)));
    assert Balanced(n) && Calm(n) && Balanced(r) && Calm(r) && Height(r) == Height(t);
  }

  /** A black sibling whose far child is red is rotated above the parent: the missing node is made up for. */
  function FarSibling(t: Shape, c: Ctx): Shape
    requires c.Under? && c.sib.T? && Kid(c.sib, Other(c.side)).T?
  {
    var s, w := c.side, c.sib;
    Mk(s, Mk(s, t, c.e, false, Kid(w, s)), w.e, c.red, Kid(w, Other(s)).(red := false))
  }

  lemma FarSiblingGood(t: Shape, c: Ctx)
    requires Short(t, c) && !Red(t) && c.Under? && c.sib.T? && !c.sib.red && Red(Kid(c.sib, Other(c.side)))
    ensures Good(FarSibling(t, c), c.up)
  {
    var s, w := c.side, c.sib;
    var p, f := Mk(s, t, c.e, false, Kid(w, s)), Kid(w, Other(s)).(red := false);
    assert Balanced(p) && Calm(p) && Height(p) == Height(t) + 1;
    assert Balanced(w) && Calm(w) && Height(w) == Height(t) + 1;
    assert Balanced(Kid(w, Other(s))) && Calm(Kid(w, Other(s))) && Height(Kid(w, Other(s))) == Height(t);
    assert Balanced(f) && Calm(f) && Height(f) == Height(t) + 1;
  }

  /** Painting a short subtree black ends the fixup when it is red or when it is the whole tree. */
  lemma Repaired(t: Shape, c: Ctx)
    requires Short(t, c) && (c.Top? || Red(t))
    ensures RedBlack(Plug(if t.T? then t.(red := false) else t, c))
  {
    GoodPlug(if t.T? then t.(red := false) else t, c);
  }

  // ---------- The fixup, in memory ----------

  method TurnRed(tree: Tree, p: Node, w: Node, s: Side, ghost m: Mem, ghost t: Shape, ghost c: Ctx)
    returns (ghost m': Mem)
    requires At(tree, m, t, c) && c.Under? && c.side == s && c.sib.T? && p == c.e.node && w == c.sib.e.node
    modifies tree`root, m.Keys
    ensures At(tree, m', t, RedSibling(c)) && m'.Keys == m.Keys && Whole(t, RedSibling(c)) == Whole(t, c)
  {
    SiblingIn(tree, m, t, c);
    m' := PaintSibling(tree, w, false, m, t, c);
    ghost var c1 := c.(sib := c.sib.(red := false));
    m' := PaintParent(tree, p, true, m', t, c1);
    c1 := c1.(red := true);
    Up(tree, m', t, c1);
    m' := Rotate(tree, p, s, m', Above(t, c1), c.up);
    ghost var r := Rotated(Above(t, c1), s);
    Down(tree, m', r, c.up, s);
    Down(tree, m', Kid(r, s), Below(r, s, c.up), s);
  }

  lemma SiblingIn(tree: Tree, m: Mem, t: Shape, c: Ctx)
    requires At(tree, m, t, c) && c.Under?
    ensures c.e.node in m && (c.sib.T? ==> c.sib.e.node in m)
    ensures c.sib.T? && c.sib.l.T? ==> c.sib.l.e.node in m
    ensures c.sib.T? && c.sib.r.T? ==> c.sib.r.e.node in m
  {
  }

  method TurnNear(tree: Tree, w: Node, n: Node, s: Side, ghost m: Mem, ghost t: Shape, ghost c: Ctx)
    returns (ghost m': Mem)
    requires At(tree, m, t, c) && c.Under? && c.side == s && c.sib.T? && Kid(c.sib, s).T?
    requires w == c.sib.e.node && n == Kid(c.sib, s).e.node
    modifies tree`root, m.Keys
    ensures At(tree, m', t, NearSibling(c)) && m'.Keys == m.Keys && Whole(t, NearSibling(c)) == Whole(t, c)
  {
    SiblingIn(tree, m, t, c);
    ghost var b := Beside(t, c);
    Across(tree, m, t, c);
    Down(tree, m, c.sib, b, s);
    m' := Paint(tree, n, false, m, Kid(c.sib, s), Below(c.sib, s, b));
    ghost var w1 := Above(Kid(c.sib, s).(red := false), Below(c.sib, s, b));
    Up(tree, m', Kid(c.sib, s).(red := false), Below(c.sib, s, b));
    m' := Paint(tree, w, true, m', w1, b);
    m' := Rotate(tree, w, Other(s), m', w1.(red := true), b);
    Across(tree, m', Rotated(w1.(red := true), Other(s)), b);
  }

  method TurnFar(tree: Tree, p: Node, w: Node, f: Node, s: Side, ghost m: Mem, ghost t: Shape, ghost c: Ctx)
    returns (ghost m': Mem)
    requires At(tree, m, t, c) && c.Under? && c.side == s && c.sib.T? && Kid(c.sib, Other(s)).T?
    requires p == c.e.node && w == c.sib.e.node && f == Kid(c.sib, Other(s)).e.node
    modifies tree`root, m.Keys
    ensures At(tree, m', FarSibling(t, c), c.up) && m'.Keys == m.Keys && Whole(FarSibling(t, c), c.up) == Whole(t, c)
  {
    SiblingIn(tree, m, t, c);
    m' := ColourFar(tree, p, w, f, s, m, t, c);
    Up(tree, m', t, FarColours(c));
    m' := Rotate(tree, p, s, m', Above(t, FarColours(c)), c.up);
  }

  function FarColours(c: Ctx): Ctx
    requires c.Under? && c.sib.T? && Kid(c.sib, Other(c.side)).T?
  {
    var s, w := c.side, c.sib;
    c.(red := false, sib := Mk(s, Kid(w, s), w.e, c.red, Kid(w, Other(s)).(red := false)))
  }

  method ColourFar(tree: Tree, p: Node, w: Node, f: Node, s: Side, ghost m: Mem, ghost t: Shape, ghost c: Ctx)
    returns (ghost m': Mem)
    requires At(tree, m, t, c) && c.Under? && c.side == s && c.sib.T? && Kid(c.sib, Other(s)).T?
    requires p == c.e.node && w == c.sib.e.node && f == Kid(c.sib, Other(s)).e.node
    modifies p, w, f
    ensures At(tree, m', t, FarColours(c)) && m'.Keys == m.Keys && Whole(t, FarColours(c)) == Whole(t, c)
  {
    LookUp(tree, m, t, c);
    m' := PaintSibling(tree, w, p.red, m, t, c);
    ghost var c1 := c.(sib := c.sib.(red := c.red));
    m' := PaintParent(tree, p, false, m', t, c1);
    m' := PaintFar(tree, f, s, m', t, c1.(red := false));
  }

  method PaintFar(tree: Tree, f: Node, s: Side, ghost m: Mem, ghost t: Shape, ghost c: Ctx) returns (ghost m': Mem)
    requires At(tree, m, t, c) && c.Under? && c.side == s && c.sib.T? && Kid(c.sib, Other(s)).T?
    requires f == Kid(c.sib, Other(s)).e.node
    modifies f
    ensures var c' := c.(sib := Mk(s, Kid(c.sib, s), c.sib.e, c.sib.red, Kid(c.sib, Other(s)).(red := false)));
      At(tree, m', t, c') && m'.Keys == m.Keys && Whole(t, c') == Whole(t, c)
  {
    ghost var b := Beside(t, c);
    Across(tree, m, t, c);
    Down(tree, m, c.sib, b, Other(s));
    m' := Paint(tree, f, false, m, Kid(c.sib, Other(s)), Below(c.sib, Other(s), b));
    ghost var w1 := Above(Kid(c.sib, Other(s)).(red := false), Below(c.sib, Other(s), b));
    Up(tree, m', Kid(c.sib, Other(s)).(red := false), Below(c.sib, Other(s), b));
    Across(tree, m', w1, b);
  }

  /** What can be read around a short subtree, and what can be read in its sibling. */
  lemma LookShort(tree: Tree, m: Mem, t: Shape, c: Ctx)
    requires At(tree, m, t, c) && Short(t, c) && c.Under?
    ensures c.sib.T? && c.e.node in m && c.sib.e.node in m && c.sib.e.node.red == c.sib.red
    ensures Ptr(t, tree.sentinel) == c.e.node.left <==> c.side.Left?
    ensures c.e.node.Child(Other(c.side)) == c.sib.e.node
    ensures c.sib.e.node.left == Ptr(c.sib.l, tree.sentinel) && c.sib.e.node.right == Ptr(c.sib.r, tree.sentinel)
    ensures Ptr(c.sib.l, tree.sentinel).red == Red(c.sib.l) && Ptr(c.sib.r, tree.sentinel).red == Red(c.sib.r)
  {
    HasSibling(t, c);
    LookUp(tree, m, t, c);
    Across(tree, m, t, c);
    Look(tree, m, c.sib, Beside(t, c));
    Down(tree, m, c.sib, Beside(t, c), Left);
    Look(tree, m, c.sib.l, Below(c.sib, Left, Beside(t, c)));
    Down(tree, m, c.sib, Beside(t, c), Right);
    Look(tree, m, c.sib.r, Below(c.sib, Right, Beside(t, c)));
  }

  /** The fixup for a black sibling w; `temp` is where it goes on. */
  method BlackSibling(tree: Tree, p: Node, w0: Node, s: Side, ghost m: Mem, ghost t: Shape, ghost c: Ctx)
    returns (temp: Node, ghost m': Mem, ghost t': Shape, ghost c': Ctx)
    requires At(tree, m, t, c) && Short(t, c) && !Red(t) && c.Under? && !Red(c.sib) && c.sib.T?
    requires p == c.e.node && w0 == c.sib.e.node && s == c.side
    modifies tree`root, m.Keys
    ensures At(tree, m', t', c') && Short(t', c') && temp == Ptr(t', tree.sentinel) && t'.T? && m'.Keys == m.Keys
    ensures Whole(t', c') == Whole(t, c)
      && (c'.Top? || (t' == Mk(c.side, t, c.e, c.red, c.sib.(red := true)) && c' == c.up))
  {
    LookShort(tree, m, t, c);
    var w := w0;
    m' := m;
    if !w.left.red && !w.right.red {
      BlackSiblingShort(t, c);
      m' := PaintSibling(tree, w, true, m, t, c);
      Up(tree, m', t, c.(sib := c.sib.(red := true)));
      temp, t', c' := p, Mk(c.side, t, c.e, c.red, c.sib.(red := true)), c.up;
    } else {
      ghost var c1 := c;
      if !(if s.Left? then w.right else w.left).red {
        NearSiblingShort(t, c);
        m' := TurnNear(tree, w, if s.Left? then w.left else w.right, s, m, t, c);
        c1 := NearSibling(c);
        LookShort(tree, m', t, c1);
        w := if s.Left? then p.right else p.left;
      }
      m' := MakeUp(tree, p, w, s, m', t, c1);
      t', c' := Plug(FarSibling(t, c1), c1.up), Top;
      temp := tree.root;
    }
  }

  /** The end of the fixup. */
  method MakeUp(tree: Tree, p: Node, w: Node, s: Side, ghost m: Mem, ghost t: Shape, ghost c: Ctx)
    returns (ghost m': Mem)
    requires At(tree, m, t, c) && Short(t, c) && !Red(t) && c.Under? && c.sib.T? && !c.sib.red
      && Red(Kid(c.sib, Other(c.side)))
    requires p == c.e.node && w == c.sib.e.node && s == c.side
    modifies tree`root, m.Keys
    ensures var t' := Plug(FarSibling(t, c), c.up);
      At(tree, m', t', Top) && Short(t', Top) && t'.T? && m'.Keys == m.Keys && Whole(t', Top) == Whole(t, c)
  {
    LookShort(tree, m, t, c);
    m' := TurnFar(tree, p, w, if s.Left? then w.right else w.left, s, m, t, c);
    ToTop(tree, m', FarSibling(t, c), c.up);
    MadeUp(t, c);
  }

  lemma MadeUp(t: Shape, c: Ctx)
    requires Short(t, c) && !Red(t) && c.Under? && c.sib.T? && !c.sib.red && Red(Kid(c.sib, Other(c.side)))
    ensures var t' := Plug(FarSibling(t, c), c.up);
      Short(t', Top) && t'.T? && Whole(t', Top) == Entries(t')
  {
    var f := FarSibling(t, c);
    FarSiblingGood(t, c);
    GoodPlug(f, c.up);
    PlugRoot(f, c.up);
    WholeTop(Plug(f, c.up));
  }

  function Measure(t: Shape, c: Ctx): nat { if c.Top? || Red(t) then 0 else Depth(c) + 1 }

  /** One round of the fixup loop. */
  method FixRound(tree: Tree, temp: Node, ghost m: Mem, ghost t: Shape, ghost c: Ctx)
    returns (temp': Node, ghost m': Mem, ghost t': Shape, ghost c': Ctx)
    requires At(tree, m, t, c) && Short(t, c) && !Red(t) && c.Under? && temp == Ptr(t, tree.sentinel)
      && temp.parent == c.e.node
    modifies tree`root, m.Keys
    ensures At(tree, m', t', c') && Short(t', c') && temp' == Ptr(t', tree.sentinel) && t'.T? && m'.Keys == m.Keys
    ensures Whole(t', c') == Whole(t, c) && Measure(t', c') < Measure(t, c)
  {
    LookShort(tree, m, t, c);
    var p := temp.parent;
    var s := if temp == p.left then Left else Right;
    var w := if s.Left? then p.right else p.left;
    m' := m;
    ghost var c1 := c;
    if w.red {
      RedSiblingShort(t, c);
      m' := TurnRed(tree, p, w, s, m, t, c);
      c1 := RedSibling(c);
      LookShort(tree, m', t, c1);
      w := if s.Left? then p.right else p.left;
    }
    temp', m', t', c' := BlackSibling(tree, p, w, s, m', t, c1);
  }

  /** rbtree_black, of a node or of the sentinel. */
  method Blacken(tree: Tree, n: Node, ghost m: Mem, ghost t: Shape, ghost c: Ctx) returns (ghost m': Mem)
    requires At(tree, m, t, c) && n == Ptr(t, tree.sentinel)
    modifies n
    ensures At(tree, m', Black(t), c) && m'.Keys == m.Keys && Whole(Black(t), c) == Whole(t, c)
  {
    n.red := false;
    m' := m;
    if t.T? {
      assert n in m.Keys;
      m' := m[n := m[n].(red := false)];
      assert Real(m');
      Painted(m, m', t, false, c, tree.sentinel);
    }
  }

  function Black(t: Shape): Shape { if t.T? then t.(red := false) else t }

  /** The fixup loop. */
  method Fixup(tree: Tree, n: Node, ghost m: Mem, ghost t: Shape, ghost c: Ctx) returns (ghost m': Mem, ghost w: Shape)
    requires At(tree, m, t, c) && Short(t, c) && n == Ptr(t, tree.sentinel) && (c.Under? ==> n.parent == c.e.node)
    modifies tree`root, m.Keys, tree.sentinel
    ensures At(tree, m', w, Top) && m'.Keys == m.Keys && RedBlack(w) && Entries(w) == Whole(t, c)
  {
    var temp := n;
    ghost var t1, c1 := t, c;
    m' := m;
    Look(tree, m', t1, c1);
    while temp != tree.root && !temp.red
      invariant At(tree, m', t1, c1) && Short(t1, c1) && temp == Ptr(t1, tree.sentinel) && m'.Keys == m.Keys
      invariant Whole(t1, c1) == Whole(t, c)
      invariant temp.red == Red(t1) && (temp == tree.root <==> c1.Top?)
      invariant c1.Under? ==> temp.parent == c1.e.node
      decreases Measure(t1, c1)
    {
      temp, m', t1, c1 := FixRound(tree, temp, m', t1, c1);
      Look(tree, m', t1, c1);
    }
    Repaired(t1, c1);
    m' := Blacken(tree, temp, m', t1, c1);
    w := Plug(Black(t1), c1);
    ToTop(tree, m', Black(t1), c1);
  }
}
