/** The timeout tree over whole runs: the head of the queue is the earliest arrival of smallest key, and
    the queue is the one the pipeline schedules its timeouts in. */
module RbRuns {
  import opened RbShape
  import opened RbQueue
  import P = PipelineState

  datatype Op = Put(e: Entry) | Take(n: Node)

  /** The queue after a sequence of insertions and deletions, starting empty. */
  function Run(ops: seq<Op>): seq<Entry> {
    if ops == [] then []
    else
      var q, op := Run(ops[..|ops| - 1]), ops[|ops| - 1];
      match op
      case Put(e) => Enqueue(q, e)
      case Take(n) => Dequeue(q, n)
  }

  ghost predicate Queued(q: seq<Entry>, n: Node) { exists i :: 0 <= i < |q| && q[i].node == n }

  /** Only nodes that are not in the tree are inserted. */
  ghost predicate Proper(ops: seq<Op>)
    decreases |ops|
  {
    ops != [] ==>
      && Proper(ops[..|ops| - 1])
      && (ops[|ops| - 1].Put? ==> !Queued(Run(ops[..|ops| - 1]), ops[|ops| - 1].e.node))
  }

  /** When a node was last inserted. */
  function Arrival(ops: seq<Op>, n: Node): int {
    if ops == [] then -1
    else if ops[|ops| - 1].Put? && ops[|ops| - 1].e.node == n then |ops| - 1
    else Arrival(ops[..|ops| - 1], n)
  }

  lemma {:induction false} ArrivalBound(ops: seq<Op>, n: Node)
    ensures Arrival(ops, n) < |ops|
  {
    if ops != [] { ArrivalBound(ops[..|ops| - 1], n); }
  }

  /** Entry a comes before entry b. */
  ghost predicate Precedes(ops: seq<Op>, a: Entry, b: Entry) {
    a.key < b.key || (a.key == b.key && Arrival(ops, a.node) < Arrival(ops, b.node))
  }

  ghost predicate InTurn(ops: seq<Op>, q: seq<Entry>) {
    forall i, j :: 0 <= i < j < |q| ==> Precedes(ops, q[i], q[j]) && q[i].node != q[j].node
  }

  /** After any run the entries stand in order of their keys and, for equal keys, of their arrival. */
  lemma {:induction false} FirstComeFirstServed(ops: seq<Op>)
    requires Proper(ops)
    ensures InTurn(ops, Run(ops))
    decreases |ops|
  {
    if ops != [] {
      var was, op := ops[..|ops| - 1], ops[|ops| - 1];
      var q := Run(was);
      FirstComeFirstServed(was);
      match op
      case Put(e) => PutInTurn(was, ops, q, e);
      case Take(n) => TakeInTurn(was, ops, q, n);
    }
  }

  lemma PutInTurn(was: seq<Op>, ops: seq<Op>, q: seq<Entry>, e: Entry)
    requires ops == was + [Put(e)] && InTurn(was, q) && !Queued(q, e.node)
    ensures InTurn(ops, Enqueue(q, e))
  {
    assert ops[..|ops| - 1] == was;
    var k := Place(q, e);
    var r := q[..k] + [e] + q[k..];
    forall i, j | 0 <= i < j < |r|
      ensures Precedes(ops, r[i], r[j]) && r[i].node != r[j].node
    {
      ArrivalBound(was, r[i].node);
      if r[i].node != e.node && r[j].node != e.node {
        assert Precedes(was, r[i], r[j]);
      }
    }
  }

  /** Where an entry is put: behind everything that is not greater. */
  lemma {:induction false} Place(q: seq<Entry>, e: Entry) returns (k: nat)
    requires forall i, j :: 0 <= i < j < |q| ==> q[i].key <= q[j].key
    ensures k <= |q| && Enqueue(q, e) == q[..k] + [e] + q[k..]
    ensures NoneAbove(q[..k], e.key) && AllAbove(q[k..], e.key)
    decreases |q|
  {
    if q == [] || e.key < q[0].key {
      k := 0;
    } else {
      var k' := Place(q[1..], e);
      k := k' + 1;
      assert q[..k] == [q[0]] + q[1..][..k'] && q[k..] == q[1..][k'..];
    }
  }

  lemma TakeInTurn(was: seq<Op>, ops: seq<Op>, q: seq<Entry>, n: Node)
    requires ops == was + [Take(n)] && InTurn(was, q)
    ensures InTurn(ops, Dequeue(q, n))
  {
    assert ops[..|ops| - 1] == was;
    var k := Spot(q, n);
    var r := Dequeue(q, n);
    forall i, j | 0 <= i < j < |r|
      ensures Precedes(ops, r[i], r[j]) && r[i].node != r[j].node
    {
      var i', j' := if i < k then i else i + 1, if j < k then j else j + 1;
      assert Precedes(was, q[i'], q[j']);
    }
  }

  /** Where a node is, or the length of the queue. */
  lemma {:induction false} Spot(q: seq<Entry>, n: Node) returns (k: nat)
    ensures k <= |q| && Dequeue(q, n) == if k < |q| then q[..k] + q[k + 1..] else q
    decreases |q|
  {
    if q == [] || q[0].node == n {
      k := 0;
    } else {
      var k' := Spot(q[1..], n);
      k := k' + 1;
      if k < |q| { assert q[..k] == [q[0]] + q[1..][..k'] && q[k + 1..] == q[1..][k' + 1..]; }
    }
  }

  // ---------- The timeouts of the pipeline ----------

  /** The queue of nodes as the pipeline's queue of timeouts: a node belongs to a request, its data is a
      server connection and its key a deadline. */
  function Timers(q: seq<Entry>, who: map<Node, P.MsgId>): seq<P.Timer>
    requires Names(q, who)
  {
    seq(|q|, i requires 0 <= i < |q| => P.Timer(who[q[i].node], q[i].data, q[i].key))
  }

  predicate Names(q: seq<Entry>, who: map<Node, P.MsgId>) {
    forall i :: 0 <= i < |q| ==> q[i].node in who
  }

  /** msg_tmo_insert in the tree is Schedule in the pipeline. */
  lemma {:induction false} InsertIsSchedule(q: seq<Entry>, e: Entry, who: map<Node, P.MsgId>)
    requires Names(q, who) && e.node in who
    ensures Names(Enqueue(q, e), who)
    ensures Timers(Enqueue(q, e), who)
      == P.Schedule(Timers(q, who), P.Timer(who[e.node], e.data, e.key))
    decreases |q|
  {
    if q != [] && q[0].key <= e.key {
      InsertIsSchedule(q[1..], e, who);
      assert Timers(q, who)[1..] == Timers(q[1..], who);
    }
  }

  /** msg_tmo_delete in the tree is Cancel in the pipeline. */
  lemma {:induction false} DeleteIsCancel(q: seq<Entry>, n: Node, who: map<Node, P.MsgId>)
    requires Names(q, who) && n in who && forall x <- who.Keys, y <- who.Keys :: who[x] == who[y] ==> x == y
    ensures Names(Dequeue(q, n), who)
    ensures Timers(Dequeue(q, n), who) == P.Cancel(Timers(q, who), who[n])
    decreases |q|
  {
    if q != [] {
      assert Timers(q, who)[1..] == Timers(q[1..], who);
      if q[0].node != n { DeleteIsCancel(q[1..], n, who); }
    }
  }
}
