/** conf_validate_structure accepts just the files that have the structure of a configuration. */
module ConfCheck {
  import opened Basics
  import opened ConfEvents

  /** The loop goes on. */
  ghost predicate Going(v: Check) { |v.count| == 3 && 0 <= v.depth <= MAX_DEPTH && !v.error && !v.done }

  ghost predicate Even(c: nat) { c == 0 || c == 2 }

  lemma One(v: Check, e: Event, rest: seq<Event>)
    requires Going(v)
    ensures CheckRun(v, [e] + rest) == CheckRun(CheckStep(v, e), rest)
  {
    assert ([e] + rest)[1..] == rest;
  }

  lemma Stopped(v: Check, es: seq<Event>)
    requires v.error
    ensures CheckRun(v, es).error
  {
  }

  /** A key or value of the wrong kind is noticed at its first event. */
  lemma FirstEvent(n: Node, rest: seq<Event>) returns (e: Event, more: seq<Event>)
    ensures Events(n) + rest == [e] + more
    ensures e == match n case Scalar(s) => Text(s) case Mapping(_) => MappingStart case Sequence(_) => SequenceStart
    ensures n.Scalar? ==> more == rest
    ensures n.Mapping? ==> more == PairEvents(n.pairs) + ([MappingEnd] + rest)
    ensures n.Sequence? ==> more == NodeEvents(n.elems) + ([SequenceEnd] + rest)
  {
    match n
    case Scalar(s) => e, more := Text(s), rest;
    case Mapping(p) =>
      e, more := MappingStart, PairEvents(p) + ([MappingEnd] + rest);
      assert PairEvents(p) + [MappingEnd] + rest == more;
      assert [e] + (PairEvents(p) + [MappingEnd]) + rest == [e] + (PairEvents(p) + [MappingEnd] + rest);
    case Sequence(l) =>
      e, more := SequenceStart, NodeEvents(l) + ([SequenceEnd] + rest);
      assert NodeEvents(l) + [SequenceEnd] + rest == more;
      assert [e] + (NodeEvents(l) + [SequenceEnd]) + rest == [e] + (NodeEvents(l) + [SequenceEnd] + rest);
  }

  /** The elements of a sequence. */
  lemma {:induction false} ElemsRun(elems: Nodes, v: Check, rest: seq<Event>) returns (c: nat)
    requires Going(v) && v.depth == MAX_DEPTH && v.seen
    ensures AllScalars(elems) ==> CheckRun(v, NodeEvents(elems) + rest) == CheckRun(v.(count := v.count[2 := c]), rest)
    ensures !AllScalars(elems) ==> CheckRun(v, NodeEvents(elems) + rest).error
    decreases elems
  {
    c := v.count[2];
    if elems.NoNode? {
      assert [] + rest == rest && v.(count := v.count[2 := c]) == v;
    } else {
      Assoc(Events(elems.node), NodeEvents(elems.next), rest);
      var e, more := FirstEvent(elems.node, NodeEvents(elems.next) + rest);
      One(v, e, more);
      var v1 := CheckStep(v, e);
      if elems.node.Scalar? {
        c := ElemsRun(elems.next, v1, rest);
        assert v1.count[2 := c] == v.count[2 := c];
      } else {
        Stopped(v1, more);
      }
    }
  }

  ghost predicate InPool(v: Check) { Going(v) && v.depth == MAX_DEPTH && Even(v.count[2]) }

  /** A sequence as a value. */
  lemma SequenceRun(elems: Nodes, v: Check, rest: seq<Event>) returns (v': Check)
    requires Going(v) && v.depth == MAX_DEPTH && v.count[2] == 1
    ensures !v.seen && AllScalars(elems) ==>
      CheckRun(v, Events(Sequence(elems)) + rest) == CheckRun(v', rest) && InPool(v') && v'.seen
        && v'.count[1] == v.count[1]
    ensures v.seen || !AllScalars(elems) ==> CheckRun(v, Events(Sequence(elems)) + rest).error
  {
    var e, more := FirstEvent(Sequence(elems), rest);
    One(v, e, more);
    var v1 := CheckStep(v, e);
    v' := v1;
    if v.seen {
      Stopped(v1, more);
    } else {
      var c := ElemsRun(elems, v1, [SequenceEnd] + rest);
      var v2 := v1.(count := v1.count[2 := c]);
      One(v2, SequenceEnd, rest);
      v' := CheckStep(v2, SequenceEnd);
    }
  }

  /** The pairs of a pool. */
  lemma {:induction false} PairsRun(pairs: Pairs, v: Check, rest: seq<Event>) returns (v': Check)
    requires InPool(v)
    ensures PairsOk(pairs, v.seen) ==>
      && CheckRun(v, PairEvents(pairs) + rest) == CheckRun(v', rest)
      && InPool(v') && v'.seen == (v.seen || HasSequence(pairs)) && v'.count[1] == v.count[1]
    ensures !PairsOk(pairs, v.seen) ==> CheckRun(v, PairEvents(pairs) + rest).error
    decreases pairs
  {
    v' := v;
    if pairs.NoPair? {
      assert [] + rest == rest;
    } else {
      var k, x, r := Events(pairs.key), Events(pairs.value), PairEvents(pairs.next);
      Assoc(k, x + r, rest);
      Assoc(x, r, rest);
      var e, more := FirstEvent(pairs.key, x + (r + rest));
      One(v, e, more);
      var v1 := CheckStep(v, e);
      if !pairs.key.Scalar? {
        Stopped(v1, more);
      } else {
        v' := ValueRun(pairs, v1, r + rest);
        if ValueOk(pairs.value, v.seen) { v' := PairsRun(pairs.next, v', rest); }
      }
    }
  }

  predicate ValueOk(n: Node, seen: bool) { n.Scalar? || (n.Sequence? && !seen && AllScalars(n.elems)) }

  lemma ValueRun(pairs: Pairs, v: Check, rest: seq<Event>) returns (v': Check)
    requires pairs.Pair? && Going(v) && v.depth == MAX_DEPTH && v.count[2] == 1
    ensures ValueOk(pairs.value, v.seen) ==>
      && CheckRun(v, Events(pairs.value) + rest) == CheckRun(v', rest)
      && InPool(v') && v'.seen == (v.seen || pairs.value.Sequence?) && v'.count[1] == v.count[1]
    ensures !ValueOk(pairs.value, v.seen) ==> CheckRun(v, Events(pairs.value) + rest).error
  {
    if pairs.value.Sequence? {
      v' := SequenceRun(pairs.value.elems, v, rest);
    } else {
      var e, more := FirstEvent(pairs.value, rest);
      One(v, e, more);
      v' := CheckStep(v, e);
      if pairs.value.Mapping? { Stopped(v', more); }
    }
  }

  ghost predicate AtRoot(v: Check) {
    Going(v) && v.depth == ROOT_DEPTH && !v.seen && v.count[1] == 0 && Even(v.count[2])
  }

  /** The value of a pool's name. */
  lemma PoolRun(n: Node, v: Check, rest: seq<Event>) returns (v': Check)
    requires Going(v) && v.depth == ROOT_DEPTH && !v.seen && v.count[1] == 1 && Even(v.count[2])
    ensures n.Mapping? && PoolOk(n.pairs) ==> CheckRun(v, Events(n) + rest) == CheckRun(v', rest) && AtRoot(v')
    ensures !(n.Mapping? && PoolOk(n.pairs)) ==> CheckRun(v, Events(n) + rest).error
  {
    var e, more := FirstEvent(n, rest);
    One(v, e, more);
    var v1 := CheckStep(v, e);
    v' := v1;
    if !n.Mapping? {
      Stopped(v1, more);
    } else {
      var v2 := PairsRun(n.pairs, v1, [MappingEnd] + rest);
      if PairsOk(n.pairs, false) {
        One(v2, MappingEnd, rest);
        v' := CheckStep(v2, MappingEnd);
        if !HasSequence(n.pairs) { Stopped(v', rest); }
      }
    }
  }

  lemma {:induction false} PoolsRun(pairs: Pairs, v: Check, rest: seq<Event>) returns (v': Check)
    requires AtRoot(v)
    ensures PoolsOk(pairs) ==> CheckRun(v, PairEvents(pairs) + rest) == CheckRun(v', rest) && AtRoot(v')
    ensures !PoolsOk(pairs) ==> CheckRun(v, PairEvents(pairs) + rest).error
    decreases pairs
  {
    v' := v;
    if pairs.NoPair? {
      assert [] + rest == rest;
    } else {
      var k, x, r := Events(pairs.key), Events(pairs.value), PairEvents(pairs.next);
      Assoc(k, x + r, rest);
      Assoc(x, r, rest);
      var e, more := FirstEvent(pairs.key, x + (r + rest));
      One(v, e, more);
      var v1 := CheckStep(v, e);
      if !pairs.key.Scalar? {
        Stopped(v1, more);
      } else {
        v' := PoolRun(pairs.value, v1, r + rest);
        if pairs.value.Mapping? && PoolOk(pairs.value.pairs) { v' := PoolsRun(pairs.next, v', rest); }
      }
    }
  }

  /** conf_validate_structure accepts a file exactly if it is a mapping from names to pools. */
  lemma AcceptsConfigurations(root: Node)
    ensures Accepted(root) <==> ConfOk(root)
  {
    var v, tail := Start(), [DocumentEnd, StreamEnd];
    var body := Events(root) + tail;
    assert Stream(root) == [StreamStart] + ([DocumentStart] + body);
    One(v, StreamStart, [DocumentStart] + body);
    One(v, DocumentStart, body);
    var e, more := FirstEvent(root, tail);
    One(v, e, more);
    var v1 := CheckStep(v, e);
    if !root.Mapping? {
      Stopped(v1, more);
    } else {
      var v2 := PoolsRun(root.pairs, v1, [MappingEnd] + tail);
      if PoolsOk(root.pairs) {
        One(v2, MappingEnd, tail);
        var v3 := CheckStep(v2, MappingEnd);
        assert tail == [DocumentEnd] + [StreamEnd];
        One(v3, DocumentEnd, [StreamEnd]);
        assert [StreamEnd] == [StreamEnd] + [];
        One(v3, StreamEnd, []);
      }
    }
  }
}
