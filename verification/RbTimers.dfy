/** The timeout tree as messages use it: msg_tmo_insert, msg_tmo_delete and msg_tmo_min over whole runs. */
module RbTimers {
  import opened RbShape
  import opened RbHeap
  import opened RbSteps
  import opened RbQueue
  import opened RbRuns
  import I = RbInsert
  import D = RbDelete

  lemma {:induction false} EntryOf(m: Mem, t: Shape, p: Node?, nil: Node, n: Node)
    requires Laid(m, t, p, nil)
    ensures n in Nodes(t) <==> Queued(Entries(t), n)
    ensures forall i :: 0 <= i < |Entries(t)| ==>
      Entries(t)[i].node in m && m[Entries(t)[i].node].data == Entries(t)[i].data
    decreases t
  {
    if t.T? {
      EntryOf(m, t.l, t.e.node, nil, n);
      EntryOf(m, t.r, t.e.node, nil, n);
      var l, r := Entries(t.l), Entries(t.r);
      var all := l + [t.e] + r;
      QueuedConcat(l, [t.e] + r, n);
      QueuedConcat([t.e], r, n);
      assert all == l + ([t.e] + r);
      assert [t.e][0] == t.e;
    }
  }

  lemma QueuedConcat(a: seq<Entry>, b: seq<Entry>, n: Node)
    ensures Queued(a + b, n) <==> Queued(a, n) || Queued(b, n)
  {
    if Queued(a, n) {
      var i :| 0 <= i < |a| && a[i].node == n;
      assert (a + b)[i].node == n;
    }
    if Queued(b, n) {
      var i :| 0 <= i < |b| && b[i].node == n;
      assert (a + b)[|a| + i].node == n;
    }
  }

  /** A node is in the tree exactly if it is in the queue, and its data is what the queue says. */
  lemma InTree(tree: Tree, n: Node)
    requires I.Valid(tree)
    ensures n in tree.mem.Keys <==> Queued(I.Contents(tree), n)
    ensures n in tree.mem.Keys ==>
      exists i :: 0 <= i < |I.Contents(tree)| && I.Contents(tree)[i].node == n && I.Contents(tree)[i].data == n.data
  {
    EntryOf(tree.mem, tree.shape, null, tree.sentinel, n);
    if n in tree.mem.Keys {
      var q := I.Contents(tree);
      var i :| 0 <= i < |q| && q[i].node == n;
      assert Matches(n, tree.mem[n]) && q[i].data == n.data;
    }
  }

  // ---------- The methods of a message ----------

  /** The nodes of the messages are `ns`. Those that are not in the tree have no data, which is how
      msg_tmo_delete tells them from the others. */
  ghost predicate Kept(tree: Tree, ns: set<Node>)
    reads tree, tree.sentinel, tree.mem.Keys, ns
  {
    && I.Valid(tree) && tree.mem.Keys <= ns && tree.sentinel !in ns
    && (forall i :: 0 <= i < |I.Contents(tree)| ==> I.Contents(tree)[i].data != 0)
    && (forall n <- ns :: n !in tree.mem ==> n.data == 0)
  }

  method SetEntry(tree: Tree, node: Node, key: int, data: int)
    requires I.Valid(tree) && node !in tree.mem && node != tree.sentinel
    modifies node
    ensures I.Valid(tree) && node.key == key && node.data == data
  {
    node.key, node.data := key, data;
  }

  method InsertEntry(tree: Tree, node: Node, key: int, data: int, ghost ns: set<Node>)
    requires Kept(tree, ns) && node in ns && node !in tree.mem && data != 0
    modifies tree`root, tree`shape, tree`mem, ns
    ensures Kept(tree, ns) && I.Contents(tree) == Enqueue(old(I.Contents(tree)), Entry(node, key, data))
  {
    EnqueueElements(I.Contents(tree), Entry(node, key, data));
    SetEntry(tree, node, key, data);
    I.Insert(tree, node);
  }

  /** msg_tmo_insert; the timeout of the pool is zero or less if it has none. */
  method TmoInsert(tree: Tree, node: Node, conn: int, now: int, timeout: int, ghost ns: set<Node>)
    requires Kept(tree, ns) && node in ns && node !in tree.mem && conn != 0
    modifies tree`root, tree`shape, tree`mem, ns
    ensures Kept(tree, ns)
    ensures I.Contents(tree) ==
      if timeout <= 0 then old(I.Contents(tree))
      else Enqueue(old(I.Contents(tree)), Entry(node, now + timeout, conn))
  {
    if timeout <= 0 { return; }
    InsertEntry(tree, node, now + timeout, conn, ns);
  }

  lemma {:induction false} NotQueued(q: seq<Entry>, n: Node)
    requires !Queued(q, n)
    ensures Dequeue(q, n) == q
  {
    if q != [] {
      assert q[0].node != n;
      forall i | 0 <= i < |q[1..]| ensures q[1..][i].node != n { assert q[i + 1].node != n; }
      NotQueued(q[1..], n);
    }
  }

  /** msg_tmo_delete: a message that is not in the tree is left alone. */
  method TmoDelete(tree: Tree, node: Node, ghost ns: set<Node>)
    requires Kept(tree, ns) && node in ns
    modifies tree`root, tree`shape, tree`mem, ns, tree.sentinel
    ensures Kept(tree, ns) && I.Contents(tree) == Dequeue(old(I.Contents(tree)), node)
    ensures node !in tree.mem
  {
    InTree(tree, node);
    if node.data == 0 {
      NotQueued(I.Contents(tree), node);
      return;
    }
    DequeueSorted(I.Contents(tree), node);
    D.Delete(tree, node);
  }

  ghost predicate Named(op: Op, ns: set<Node>) {
    match op
    case Put(e) => e.node in ns && e.data != 0
    case Take(n) => n in ns
  }

  /** One insertion or deletion. */
  method Apply(tree: Tree, op: Op, ghost was: seq<Op>, ghost ns: set<Node>)
    requires Kept(tree, ns) && I.Contents(tree) == Run(was) && Proper(was + [op]) && Named(op, ns)
    modifies tree`root, tree`shape, tree`mem, ns, tree.sentinel
    ensures Kept(tree, ns) && I.Contents(tree) == Run(was + [op])
  {
    assert (was + [op])[..|was|] == was;
    match op {
      case Put(e) =>
        InTree(tree, e.node);
        InsertEntry(tree, e.node, e.key, e.data, ns);
      case Take(n) => TmoDelete(tree, n, ns);
    }
  }

  /** Any sequence of insertions and deletions on an empty tree leaves a tree whose entries stand in order
      of their deadlines and, for equal deadlines, of their arrival. */
  method RunAll(tree: Tree, ops: seq<Op>, ghost ns: set<Node>)
    requires Kept(tree, ns) && I.Contents(tree) == [] && Proper(ops)
    requires forall i :: 0 <= i < |ops| ==> Named(ops[i], ns)
    modifies tree`root, tree`shape, tree`mem, ns, tree.sentinel
    ensures Kept(tree, ns) && I.Contents(tree) == Run(ops) && InTurn(ops, Run(ops))
  {
    var i := 0;
    assert ops[..0] == [] && ops[..|ops|] == ops;
    while i < |ops|
      invariant 0 <= i <= |ops| && Kept(tree, ns) && I.Contents(tree) == Run(ops[..i])
    {
      ghost var was := ops[..i];
      assert was + [ops[i]] == ops[..i + 1];
      ProperPrefix(ops, i + 1);
      Apply(tree, ops[i], was, ns);
      i := i + 1;
    }
    FirstComeFirstServed(ops);
  }

  lemma {:induction false} ProperPrefix(ops: seq<Op>, k: nat)
    requires Proper(ops) && k <= |ops|
    ensures Proper(ops[..k])
    decreases |ops|
  {
    if k == |ops| {
      assert ops[..k] == ops;
    } else {
      var was := ops[..|ops| - 1];
      ProperPrefix(was, k);
      assert was[..k] == ops[..k];
    }
  }

  /** msg_tmo_min after such a run: nobody in the tree has an earlier deadline, and nobody with the same one
      came before. */
  method TmoMin(tree: Tree, ghost ops: seq<Op>) returns (r: Node?)
    requires I.Valid(tree) && Proper(ops) && I.Contents(tree) == Run(ops)
    ensures r == null <==> Run(ops) == []
    ensures r != null ==> r == Run(ops)[0].node
    ensures forall i :: 0 < i < |Run(ops)| ==> Precedes(ops, Run(ops)[0], Run(ops)[i])
  {
    r := D.Min(tree);
    FirstComeFirstServed(ops);
  }
}
