/** conf_parse_core: on a file that conf_validate_structure accepted, its stack of arguments is used
    properly and the handler sees every directive once, in order. */
module ConfParse {
  import opened Basics
  import opened ConfEvents
  import C = ConfCheck

  /** What conf_handler is called on: the name of a pool, or a key and a value of the pool. */
  datatype Call = Pool(name: string) | Set(pool: string, key: string, value: string)

  /** How far parsing got; Fault is a pop of an empty stack or a failed assertion. */
  datatype Status = Running | Finished | Failed | Fault

  datatype State = State(depth: int, seq_: bool, arg: seq<string>, calls: seq<Call>, status: Status)

  /** The handler takes or refuses a directive, depending on the directives it has seen: it refuses, for
      one, a directive it has already taken for the same pool. */
  type Handler = (seq<Call>, Call) -> bool

  // ---------- conf_parse_core ----------

  function Pop(s: State): State {
    if s.arg == [] then s.(status := Fault) else s.(arg := s.arg[..|s.arg| - 1])
  }

  /** conf_handler on the top of the stack. */
  function CallOf(arg: seq<string>): Call
    requires arg != []
  {
    var n := |arg|;
    if n == 1 then Pool(arg[0]) else Set(arg[0], arg[n - 2], arg[n - 1])
  }

  function Handle(h: Handler, s: State, leaf: bool): State
    requires s.arg != []
  {
    var call := CallOf(s.arg);
    var s1 := s.(calls := s.calls + [call]);
    var s2 := if leaf then Pop(s1) else s1;
    var s3 := if leaf && !s.seq_ then Pop(s2) else s2;
    if s3.status.Running? && !h(s.calls, call) then s3.(status := Failed) else s3
  }

  /** One call of conf_parse_core, up to its recursive call. */
  function Step(h: Handler, s: State, e: Event): State {
    match e
    case MappingEnd =>
      var s1 := s.(depth := s.depth - 1);
      if s1.depth == 1 then Pop(s1) else if s1.depth == 0 then s1.(status := Finished) else s1
    case MappingStart => s.(depth := s.depth + 1)
    case SequenceStart => s.(seq_ := true)
    case SequenceEnd => Pop(s).(seq_ := false)
    case Text(t) =>
      if t == [] then s.(status := Failed)
      else
        var s1 := s.(arg := s.arg + [t]);
        if s.seq_ then if s.depth != MAX_DEPTH then s1.(status := Fault) else Handle(h, s1, true)
        else if s.depth == ROOT_DEPTH then Handle(h, s1, false)
        else if |s1.arg| == s.depth + 1 then if s.depth != MAX_DEPTH then s1.(status := Fault) else Handle(h, s1, true)
        else s1
    case _ => s.(status := Fault)
  }

  function Run(h: Handler, s: State, es: seq<Event>): State
    decreases |es|
  {
    if es == [] || !s.status.Running? then s else Run(h, Step(h, s, es[0]), es[1..])
  }

  // ---------- What the file says ----------

  /** What parsing meets, in the order of the file: a directive, or a scalar that is empty. */
  datatype Item = Do(call: Call) | Blank

  function ItemOf(filled: bool, call: Call): Item {
    if filled then Do(call) else Blank
  }

  /** The directives of a sequence, of a pool and of a configuration, in order. */
  function ElemItems(pool: string, key: string, elems: Nodes): seq<Item>
    requires AllScalars(elems)
  {
    if elems.NoNode? then []
    else [ItemOf(elems.node.text != [], Set(pool, key, elems.node.text))] + ElemItems(pool, key, elems.next)
  }

  function PairItem(pool: string, key: string, value: Node): seq<Item>
    requires value.Scalar? || (value.Sequence? && AllScalars(value.elems))
  {
    if value.Scalar? then [ItemOf(key != [] && value.text != [], Set(pool, key, value.text))]
    else if key == [] then [Blank]
    else ElemItems(pool, key, value.elems)
  }

  function PairItems(pool: string, pairs: Pairs, seen: bool): seq<Item>
    requires PairsOk(pairs, seen)
  {
    if pairs.NoPair? then []
    else
      PairItem(pool, pairs.key.text, pairs.value) + PairItems(pool, pairs.next, seen || pairs.value.Sequence?)
  }

  function PoolItems(pairs: Pairs): seq<Item>
    requires PoolsOk(pairs)
  {
    if pairs.NoPair? then []
    else
      [ItemOf(pairs.key.text != [], Pool(pairs.key.text))] + PairItems(pairs.key.text, pairs.value.pairs, false)
      + PoolItems(pairs.next)
  }

  /** What a handler that has seen the calls `before` has seen after the items, and whether all went well:
      the first empty scalar ends it, and so does the first directive the handler refuses. */
  function Outcome(h: Handler, before: seq<Call>, items: seq<Item>): (seq<Call>, bool)
    decreases |items|
  {
    if items == [] then (before, true)
    else if items[0].Blank? then (before, false)
    else
      var c := items[0].call;
      if h(before, c) then Outcome(h, before + [c], items[1..]) else (before + [c], false)
  }

  predicate AllFilled(items: seq<Item>) { forall i :: 0 <= i < |items| ==> items[i].Do? }

  function Calls(items: seq<Item>): seq<Call>
    requires AllFilled(items)
  {
    seq(|items|, i requires 0 <= i < |items| => items[i].call)
  }

  /** The handler, having seen the calls `before`, takes all of the calls, one after the other. */
  predicate Takes(h: Handler, before: seq<Call>, calls: seq<Call>) {
    forall i :: 0 <= i < |calls| ==> h(before + calls[..i], calls[i])
  }

  lemma TakesFirst(h: Handler, before: seq<Call>, c: Call, calls: seq<Call>)
    ensures Takes(h, before, [c] + calls) <==> h(before, c) && Takes(h, before + [c], calls)
  {
    var all := [c] + calls;
    assert before + all[..0] == before;
    forall i | 0 <= i < |calls| ensures before + [c] + calls[..i] == before + all[..i + 1] && all[i + 1] == calls[i] {
      assert all[..i + 1] == [c] + calls[..i];
    }
    if Takes(h, before, all) {
      assert h(before + all[..0], all[0]);
      forall i | 0 <= i < |calls| ensures h(before + [c] + calls[..i], calls[i]) {
        assert h(before + all[..i + 1], all[i + 1]);
      }
    }
    if h(before, c) && Takes(h, before + [c], calls) {
      forall i | 0 <= i < |all| ensures h(before + all[..i], all[i]) {
        if i > 0 { assert h(before + [c] + calls[..i - 1], calls[i - 1]); }
      }
    }
  }

  /** All goes well exactly if no scalar is empty and the handler takes every directive given those before
      it; then it has seen them all, once and in order. */
  lemma {:induction false} OutcomeWell(h: Handler, before: seq<Call>, items: seq<Item>)
    ensures Outcome(h, before, items).1 <==> AllFilled(items) && Takes(h, before, Calls(items))
    ensures Outcome(h, before, items).1 ==> Outcome(h, before, items).0 == before + Calls(items)
    decreases |items|
  {
    if items != [] && items[0].Do? {
      var c, rest := items[0].call, items[1..];
      assert AllFilled(items) <==> AllFilled(rest);
      if AllFilled(items) {
        assert Calls(items) == [c] + Calls(rest);
        TakesFirst(h, before, c, Calls(rest));
        assert before + [c] + Calls(rest) == before + ([c] + Calls(rest));
      }
      if h(before, c) { OutcomeWell(h, before + [c], rest); }
    }
  }

  lemma {:induction false} OutcomeBoth(h: Handler, before: seq<Call>, x: seq<Item>, y: seq<Item>)
    ensures Outcome(h, before, x + y) ==
      if Outcome(h, before, x).1 then Outcome(h, Outcome(h, before, x).0, y) else Outcome(h, before, x)
    decreases |x|
  {
    if x == [] {
      assert x + y == y;
    } else {
      assert (x + y)[1..] == x[1..] + y;
      if x[0].Do? && h(before, x[0].call) { OutcomeBoth(h, before + [x[0].call], x[1..], y); }
    }
  }

  // ---------- Parsing what the file says ----------

  lemma One(h: Handler, s: State, e: Event, rest: seq<Event>)
    requires s.status.Running?
    ensures Run(h, s, [e] + rest) == Run(h, Step(h, s, e), rest)
  {
    assert ([e] + rest)[1..] == rest;
  }

  /** From s, a part of the file with the given items is parsed as far as all goes well: then parsing
      goes on behind it, and otherwise it fails, the handler having seen what it should. */
  ghost predicate Leads(h: Handler, s: State, es: seq<Event>, rest: seq<Event>, items: seq<Item>) {
    var r, o := Run(h, s, es + rest), Outcome(h, s.calls, items);
    if o.1 then r == Run(h, s.(calls := o.0), rest) else r.status.Failed? && r.calls == o.0
  }

  lemma LeadsNone(h: Handler, s: State, rest: seq<Event>)
    ensures Leads(h, s, [], rest, [])
  {
    assert [] + rest == rest;
  }

  /** One part after the other. */
  lemma LeadsBoth(h: Handler, s: State, a: seq<Event>, b: seq<Event>, rest: seq<Event>, x: seq<Item>, y: seq<Item>)
    requires Leads(h, s, a, b + rest, x)
    requires Outcome(h, s.calls, x).1 ==> Leads(h, s.(calls := Outcome(h, s.calls, x).0), b, rest, y)
    ensures Leads(h, s, a + b, rest, x + y)
  {
    assert a + b + rest == a + (b + rest);
    OutcomeBoth(h, s.calls, x, y);
  }

  /** Inside a pool, between its pairs. */
  ghost predicate InPool(s: State, pool: string) {
    s.status.Running? && s.depth == MAX_DEPTH && !s.seq_ && s.arg == [pool]
  }

  ghost predicate InSequence(s: State, pool: string, key: string) {
    s.status.Running? && s.depth == MAX_DEPTH && s.seq_ && s.arg == [pool, key]
  }

  lemma OutcomeOne(h: Handler, before: seq<Call>, filled: bool, c: Call)
    ensures Outcome(h, before, [ItemOf(filled, c)]) ==
      if filled then (before + [c], h(before, c)) else (before, false)
  {
  }

  /** One element of a sequence. */
  lemma ElemStep(h: Handler, s: State, t: string, pool: string, key: string, rest: seq<Event>)
    requires InSequence(s, pool, key)
    ensures Leads(h, s, [Text(t)], rest, [ItemOf(t != [], Set(pool, key, t))])
  {
    One(h, s, Text(t), rest);
    OutcomeOne(h, s.calls, t != [], Set(pool, key, t));
    if t != [] {
      var arg := s.arg + [t];
      assert arg[..2] == s.arg && CallOf(arg) == Set(pool, key, t);
    }
  }

  lemma {:induction false} ElemsLead(h: Handler, s: State, elems: Nodes, pool: string, key: string, rest: seq<Event>)
    requires InSequence(s, pool, key) && AllScalars(elems)
    ensures Leads(h, s, NodeEvents(elems), rest, ElemItems(pool, key, elems))
    decreases elems
  {
    if elems.NoNode? {
      LeadsNone(h, s, rest);
    } else {
      var t, more := elems.node.text, NodeEvents(elems.next);
      var x := [ItemOf(t != [], Set(pool, key, t))];
      ElemStep(h, s, t, pool, key, more + rest);
      ElemsLead(h, s.(calls := Outcome(h, s.calls, x).0), elems.next, pool, key, rest);
      LeadsBoth(h, s, [Text(t)], more, rest, x, ElemItems(pool, key, elems.next));
    }
  }

  /** A key and a value. */
  lemma ScalarPair(h: Handler, s: State, k: string, v: string, pool: string, rest: seq<Event>)
    requires InPool(s, pool)
    ensures Leads(h, s, [Text(k)] + [Text(v)], rest, PairItem(pool, k, Scalar(v)))
  {
    Assoc([Text(k)], [Text(v)], rest);
    One(h, s, Text(k), [Text(v)] + rest);
    OutcomeOne(h, s.calls, k != [] && v != [], Set(pool, k, v));
    KeyStep(h, s, k, pool);
    if k != [] {
      One(h, s.(arg := [pool, k]), Text(v), rest);
      ValueStep(h, s, k, v, pool);
    }
  }

  lemma KeyStep(h: Handler, s: State, k: string, pool: string)
    requires InPool(s, pool)
    ensures Step(h, s, Text(k)) == if k == [] then s.(status := Failed) else s.(arg := [pool, k])
  {
  }

  lemma ValueStep(h: Handler, s: State, k: string, v: string, pool: string)
    requires InPool(s, pool)
    ensures var r, c := Step(h, s.(arg := [pool, k]), Text(v)), Set(pool, k, v);
      r == if v == [] then s.(arg := [pool, k], status := Failed)
           else s.(calls := s.calls + [c], status := if h(s.calls, c) then Running else Failed)
  {
    if v != [] {
      var arg := [pool, k] + [v];
      assert CallOf(arg) == Set(pool, k, v) && arg[..2] == [pool, k] && [pool, k][..1] == [pool];
    }
  }

  /** A key and a sequence. */
  lemma SequencePair(h: Handler, s: State, k: string, elems: Nodes, pool: string, rest: seq<Event>)
    requires InPool(s, pool) && AllScalars(elems)
    ensures Leads(h, s, [Text(k)] + Events(Sequence(elems)), rest, PairItem(pool, k, Sequence(elems)))
  {
    var n, end := NodeEvents(elems), [SequenceEnd] + rest;
    assert [Text(k)] + Events(Sequence(elems)) + rest == [Text(k)] + ([SequenceStart] + (n + end));
    One(h, s, Text(k), [SequenceStart] + (n + end));
    KeyStep(h, s, k, pool);
    if k != [] {
      SequenceBody(h, s.(arg := [pool, k]), k, elems, pool, rest);
    }
  }

  lemma SequenceEnds(h: Handler, s: State, k: string, pool: string, rest: seq<Event>)
    requires s.status.Running? && s.arg == [pool, k]
    ensures Run(h, s, [SequenceEnd] + rest) == Run(h, s.(arg := [pool], seq_ := false), rest)
  {
    One(h, s, SequenceEnd, rest);
    assert [pool, k][..1] == [pool];
  }

  lemma SequenceBody(h: Handler, s: State, k: string, elems: Nodes, pool: string, rest: seq<Event>)
    requires s.status.Running? && s.depth == MAX_DEPTH && !s.seq_ && s.arg == [pool, k] && AllScalars(elems)
    ensures var r := Run(h, s, [SequenceStart] + (NodeEvents(elems) + ([SequenceEnd] + rest)));
      var o := Outcome(h, s.calls, ElemItems(pool, k, elems));
      if o.1 then r == Run(h, s.(arg := [pool], calls := o.0), rest) else r.status.Failed? && r.calls == o.0
  {
    var end, s1 := [SequenceEnd] + rest, s.(seq_ := true);
    One(h, s, SequenceStart, NodeEvents(elems) + end);
    ElemsLead(h, s1, elems, pool, k, end);
    SequenceEnds(h, s1.(calls := Outcome(h, s.calls, ElemItems(pool, k, elems)).0), k, pool, rest);
  }

  lemma {:induction false} PairsLead(h: Handler, s: State, pairs: Pairs, seen: bool, pool: string, rest: seq<Event>)
    requires InPool(s, pool) && PairsOk(pairs, seen)
    ensures Leads(h, s, PairEvents(pairs), rest, PairItems(pool, pairs, seen))
    decreases pairs
  {
    if pairs.NoPair? {
      LeadsNone(h, s, rest);
    } else {
      var k, v, r := pairs.key.text, pairs.value, PairEvents(pairs.next);
      var seen' := seen || v.Sequence?;
      var x := PairItem(pool, k, v);
      if v.Scalar? {
        ScalarPair(h, s, k, v.text, pool, r + rest);
      } else {
        SequencePair(h, s, k, v.elems, pool, r + rest);
      }
      PairsLead(h, s.(calls := Outcome(h, s.calls, x).0), pairs.next, seen', pool, rest);
      LeadsBoth(h, s, [Text(k)] + Events(v), r, rest, x, PairItems(pool, pairs.next, seen'));
      assert PairEvents(pairs) == [Text(k)] + Events(v) + r;
    }
  }

  /** Between pools. */
  ghost predicate AtRoot(s: State) { s.status.Running? && s.depth == ROOT_DEPTH && !s.seq_ && s.arg == [] }

  /** The name of a pool and its pairs. */
  lemma {:induction false} PoolLeads(h: Handler, s: State, name: string, pairs: Pairs, rest: seq<Event>)
    requires AtRoot(s) && PoolOk(pairs)
    ensures Leads(h, s, [Text(name)] + Events(Mapping(pairs)), rest,
                  [ItemOf(name != [], Pool(name))] + PairItems(name, pairs, false))
  {
    var x, y := [ItemOf(name != [], Pool(name))], PairItems(name, pairs, false);
    PoolText(name, pairs, rest);
    PoolName(h, s, name, PairEvents(pairs) + ([MappingEnd] + rest));
    OutcomeBoth(h, s.calls, x, y);
    OutcomeOne(h, s.calls, name != [], Pool(name));
    if name != [] && h(s.calls, Pool(name)) { PoolBody(h, Entered(s, name), name, pairs, rest); }
  }

  lemma PoolText(name: string, pairs: Pairs, rest: seq<Event>)
    ensures [Text(name)] + Events(Mapping(pairs)) + rest ==
      [Text(name)] + ([MappingStart] + (PairEvents(pairs) + ([MappingEnd] + rest)))
  {
    var p := PairEvents(pairs);
    Assoc([Text(name)], Events(Mapping(pairs)), rest);
    Assoc([MappingStart], p + [MappingEnd], rest);
    Assoc(p, [MappingEnd], rest);
  }

  /** Inside a new pool. */
  function Entered(s: State, name: string): State {
    s.(depth := MAX_DEPTH, arg := [name], calls := s.calls + [Pool(name)])
  }

  lemma PoolName(h: Handler, s: State, name: string, more: seq<Event>)
    requires AtRoot(s)
    ensures var r := Run(h, s, [Text(name)] + ([MappingStart] + more));
      && (name == [] ==> r.status.Failed? && r.calls == s.calls)
      && (name != [] && !h(s.calls, Pool(name)) ==> r.status.Failed? && r.calls == s.calls + [Pool(name)])
      && (name != [] && h(s.calls, Pool(name)) ==> r == Run(h, Entered(s, name), more))
  {
    One(h, s, Text(name), [MappingStart] + more);
    if name != [] {
      assert [] + [name] == [name];
      var s1 := Step(h, s, Text(name));
      if h(s.calls, Pool(name)) { One(h, s1, MappingStart, more); }
    }
  }

  lemma {:induction false} PoolBody(h: Handler, s: State, name: string, pairs: Pairs, rest: seq<Event>)
    requires InPool(s, name) && PoolOk(pairs)
    ensures var r := Run(h, s, PairEvents(pairs) + ([MappingEnd] + rest));
      var o := Outcome(h, s.calls, PairItems(name, pairs, false));
      if o.1 then r == Run(h, s.(depth := ROOT_DEPTH, arg := [], calls := o.0), rest)
      else r.status.Failed? && r.calls == o.0
  {
    PairsLead(h, s, pairs, false, name, [MappingEnd] + rest);
    One(h, s.(calls := Outcome(h, s.calls, PairItems(name, pairs, false)).0), MappingEnd, rest);
    assert [name][..0] == [];
  }

  lemma {:induction false} PoolsLead(h: Handler, s: State, pairs: Pairs, rest: seq<Event>)
    requires AtRoot(s) && PoolsOk(pairs)
    ensures Leads(h, s, PairEvents(pairs), rest, PoolItems(pairs))
    decreases pairs
  {
    if pairs.NoPair? {
      LeadsNone(h, s, rest);
    } else {
      var k, m, r := pairs.key.text, pairs.value, PairEvents(pairs.next);
      var x := [ItemOf(k != [], Pool(k))] + PairItems(k, m.pairs, false);
      PoolLeads(h, s, k, m.pairs, r + rest);
      PoolsLead(h, s.(calls := Outcome(h, s.calls, x).0), pairs.next, rest);
      LeadsBoth(h, s, [Text(k)] + Events(m), r, rest, x, PoolItems(pairs.next));
      assert PairEvents(pairs) == [Text(k)] + Events(m) + r;
    }
  }

  /** conf_begin_parse takes the events up to the root mapping. */
  function Begun(): State { State(1, false, [], [], Running) }

  /** The events from which conf_parse_core starts, behind those conf_begin_parse takes. */
  function Body(root: Node): seq<Event>
    requires root.Mapping?
  {
    PairEvents(root.pairs) + [MappingEnd, DocumentEnd, StreamEnd]
  }

  /** A file that conf_validate_structure accepts is parsed without a fault, whatever the handler answers.
      If no scalar is empty and the handler takes every directive given those before it, parsing ends at
      depth 0 with no arguments left, and the handler saw the name of every pool, every key with its value
      and every element of a sequence, once and in order. Otherwise it fails at the first empty scalar or
      the first directive that is refused, the handler having seen exactly the directives up to there. */
  lemma ParsesConfigurations(h: Handler, root: Node)
    requires Accepted(root)
    ensures ConfOk(root) && Stream(root) == [StreamStart, DocumentStart, MappingStart] + Body(root)
    ensures var r, items := Run(h, Begun(), Body(root)), PoolItems(root.pairs);
      if AllFilled(items) && Takes(h, [], Calls(items)) then r == State(0, false, [], Calls(items), Finished)
      else r.status.Failed? && r.calls == Outcome(h, [], items).0
  {
    C.AcceptsConfigurations(root);
    var p, tail := PairEvents(root.pairs), [MappingEnd] + [DocumentEnd, StreamEnd];
    assert Events(root) + [DocumentEnd, StreamEnd] == [MappingStart] + (p + tail);
    assert Stream(root) == [StreamStart, DocumentStart] + ([MappingStart] + (p + tail));
    PoolsLead(h, Begun(), root.pairs, tail);
    var o := Outcome(h, [], PoolItems(root.pairs));
    OutcomeWell(h, [], PoolItems(root.pairs));
    if o.1 { assert [] + Calls(PoolItems(root.pairs)) == Calls(PoolItems(root.pairs)); }
    One(h, Begun().(calls := o.0), MappingEnd, [DocumentEnd, StreamEnd]);
    assert tail == [MappingEnd, DocumentEnd, StreamEnd];
  }
}
