/** Shapes of the red-black tree: the tree of nodes as a value, seen from a node inside it (a subtree
    and the context around it), its order, its colouring and its black heights. */
module RbShape {
  /** struct rbnode. */
  class Node {
    var left: Node?
    var right: Node?
    var parent: Node?
    var key: int
    var data: int
    var red: bool

    constructor ()
      ensures key == 0 && data == 0
    {
      left, right, parent, key, data, red := null, null, null, 0, 0, false;
    }

    ghost function Child(s: Side): Node?
      reads this
    {
      if s.Left? then left else right
    }
  }

  datatype Side = Left | Right

  function Other(s: Side): Side { if s.Left? then Right else Left }

  datatype Entry = Entry(node: Node, key: int, data: int)

  datatype Shape = E | T(l: Shape, e: Entry, red: bool, r: Shape)

  /** What surrounds a subtree: the parent, which child of it the subtree is, the sibling, and so on
      up to the root. */
  datatype Ctx = Top | Under(side: Side, e: Entry, red: bool, sib: Shape, up: Ctx)

  /** The tree over e with child `near` on side s and child `far` on the other. */
  function Mk(s: Side, near: Shape, e: Entry, red: bool, far: Shape): Shape {
    if s.Left? then T(near, e, red, far) else T(far, e, red, near)
  }

  function Kid(t: Shape, s: Side): Shape
    requires t.T?
  {
    if s.Left? then t.l else t.r
  }

  function Plug(t: Shape, c: Ctx): Shape
    decreases c
  {
    if c.Top? then t else Plug(Mk(c.side, t, c.e, c.red, c.sib), c.up)
  }

  function Depth(c: Ctx): nat {
    if c.Top? then 0 else 1 + Depth(c.up)
  }

  // ---------- Nodes ----------

  function Nodes(t: Shape): set<Node> {
    if t.E? then {} else Nodes(t.l) + {t.e.node} + Nodes(t.r)
  }

  function CtxNodes(c: Ctx): set<Node> {
    if c.Top? then {} else {c.e.node} + Nodes(c.sib) + CtxNodes(c.up)
  }

  ghost predicate Distinct(t: Shape) {
    t.T? ==>
      && Distinct(t.l) && Distinct(t.r) && Nodes(t.l) !! Nodes(t.r)
      && t.e.node !in Nodes(t.l) && t.e.node !in Nodes(t.r)
  }

  ghost predicate CtxDistinct(c: Ctx) {
    c.Under? ==>
      && Distinct(c.sib) && CtxDistinct(c.up) && Nodes(c.sib) !! CtxNodes(c.up)
      && c.e.node !in Nodes(c.sib) && c.e.node !in CtxNodes(c.up)
  }

  // ---------- Order ----------

  function Entries(t: Shape): seq<Entry> {
    if t.E? then [] else Entries(t.l) + [t.e] + Entries(t.r)
  }

  function Before(c: Ctx): seq<Entry> {
    if c.Top? then []
    else if c.side.Left? then Before(c.up)
    else Before(c.up) + Entries(c.sib) + [c.e]
  }

  function After(c: Ctx): seq<Entry> {
    if c.Top? then []
    else if c.side.Right? then After(c.up)
    else [c.e] + Entries(c.sib) + After(c.up)
  }

  /** The in-order sequence of the whole tree, seen from inside. */
  function Whole(t: Shape, c: Ctx): seq<Entry> { Before(c) + Entries(t) + After(c) }

  lemma WholeTop(t: Shape)
    ensures Whole(t, Top) == Entries(t)
  {
    assert [] + Entries(t) + [] == Entries(t);
  }

  lemma WholeUp(t: Shape, c: Ctx)
    requires c.Under?
    ensures Whole(Mk(c.side, t, c.e, c.red, c.sib), c.up) == Whole(t, c)
  {
    var b, m, s, a := Before(c.up), Entries(t), Entries(c.sib), After(c.up);
    if c.side.Left? {
      assert b + (m + [c.e] + s) + a == b + m + ([c.e] + s + a);
    } else {
      assert b + (s + [c.e] + m) + a == (b + s + [c.e]) + m + a;
    }
  }

  lemma {:induction false} WholePlug(t: Shape, c: Ctx)
    ensures Entries(Plug(t, c)) == Whole(t, c)
    decreases c
  {
    if c.Top? {
      assert Before(c) == [] && After(c) == [];
    } else {
      WholePlug(Mk(c.side, t, c.e, c.red, c.sib), c.up);
      WholeUp(t, c);
    }
  }

  // ---------- Colours and heights ----------

  predicate Red(t: Shape) { t.T? && t.red }

  function Weight(red: bool): nat { if red then 0 else 1 }

  /** Black nodes on the way to the leftmost leaf. */
  function Height(t: Shape): nat {
    if t.E? then 0 else Height(t.l) + Weight(t.red)
  }

  /** The same number of black nodes on the way to every leaf. */
  predicate Balanced(t: Shape) {
    t.T? ==> Balanced(t.l) && Balanced(t.r) && Height(t.l) == Height(t.r)
  }

  /** No red node has a red child. */
  predicate Calm(t: Shape) {
    t.T? ==> Calm(t.l) && Calm(t.r) && (t.red ==> !Red(t.l) && !Red(t.r))
  }

  predicate RedBlack(t: Shape) { !Red(t) && Balanced(t) && Calm(t) }

  /** The context is balanced around a subtree of black height h. */
  predicate Fits(c: Ctx, h: nat)
    decreases c
  {
    c.Under? ==> Balanced(c.sib) && Height(c.sib) == h && Fits(c.up, h + Weight(c.red))
  }

  predicate RedOk(c: Ctx) { c.Under? && !c.red }

  /** No red node of the context has a red parent or a red child within it, and the root is black. */
  predicate Quiet(c: Ctx) {
    c.Under? ==> Calm(c.sib) && Quiet(c.up) && (c.red ==> !Red(c.sib) && RedOk(c.up))
  }

  predicate Good(t: Shape, c: Ctx) {
    Balanced(t) && Calm(t) && Fits(c, Height(t)) && Quiet(c) && (Red(t) ==> RedOk(c))
  }

  lemma GoodUp(t: Shape, c: Ctx)
    requires c.Under?
    ensures Good(t, c) <==> Good(Mk(c.side, t, c.e, c.red, c.sib), c.up)
  {
  }

  /** The whole is a red-black tree exactly when the part and its surroundings fit together. */
  lemma {:induction false} GoodPlug(t: Shape, c: Ctx)
    ensures Good(t, c) <==> RedBlack(Plug(t, c))
    decreases c
  {
    if c.Under? {
      GoodUp(t, c);
      GoodPlug(Mk(c.side, t, c.e, c.red, c.sib), c.up);
    }
  }
}
