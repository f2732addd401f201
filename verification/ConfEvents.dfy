/** The configuration file as a tree and as the stream of events a YAML parser makes of it; and the
    structure that conf_validate_structure asks for. */
module ConfEvents {
  /** A YAML node; scalars may be empty, and any node may be a key. */
  datatype Node = Scalar(text: string) | Mapping(pairs: Pairs) | Sequence(elems: Nodes)
  datatype Pairs = NoPair | Pair(key: Node, value: Node, next: Pairs)
  datatype Nodes = NoNode | Cons(node: Node, next: Nodes)

  datatype Event =
    | StreamStart | StreamEnd | DocumentStart | DocumentEnd
    | MappingStart | MappingEnd | SequenceStart | SequenceEnd | Text(text: string)

  function Events(n: Node): seq<Event> {
    match n
    case Scalar(s) => [Text(s)]
    case Mapping(pairs) => [MappingStart] + (PairEvents(pairs) + [MappingEnd])
    case Sequence(elems) => [SequenceStart] + (NodeEvents(elems) + [SequenceEnd])
  }

  function PairEvents(pairs: Pairs): seq<Event> {
    if pairs.NoPair? then [] else Events(pairs.key) + (Events(pairs.value) + PairEvents(pairs.next))
  }

  function NodeEvents(elems: Nodes): seq<Event> {
    if elems.NoNode? then [] else Events(elems.node) + NodeEvents(elems.next)
  }

  /** A file of one document. */
  function Stream(root: Node): seq<Event> { [StreamStart, DocumentStart] + (Events(root) + [DocumentEnd, StreamEnd]) }

  // ---------- The structure ----------

  predicate AllScalars(elems: Nodes) { elems.Cons? ==> elems.node.Scalar? && AllScalars(elems.next) }

  /** Scalars for scalars, and at most one sequence of scalars; `seen` says whether there was one before. */
  predicate PairsOk(pairs: Pairs, seen: bool) {
    pairs.Pair? ==>
      && pairs.key.Scalar?
      && (pairs.value.Scalar? || (pairs.value.Sequence? && !seen && AllScalars(pairs.value.elems)))
      && PairsOk(pairs.next, seen || pairs.value.Sequence?)
  }

  predicate HasSequence(pairs: Pairs) { pairs.Pair? && (pairs.value.Sequence? || HasSequence(pairs.next)) }

  /** A pool: scalars for scalars and just one sequence. */
  predicate PoolOk(pairs: Pairs) { PairsOk(pairs, false) && HasSequence(pairs) }

  predicate PoolsOk(pairs: Pairs) {
    pairs.Pair? ==> pairs.key.Scalar? && pairs.value.Mapping? && PoolOk(pairs.value.pairs) && PoolsOk(pairs.next)
  }

  /** A configuration: named pools. */
  predicate ConfOk(root: Node) { root.Mapping? && PoolsOk(root.pairs) }

  // ---------- conf_validate_structure ----------

  const ROOT_DEPTH: int := 1
  const MAX_DEPTH: int := 2

  /** The variables of conf_validate_structure; counts are those at depth 0, 1 and 2. */
  datatype Check = Check(depth: int, seen: bool, count: seq<nat>, error: bool, done: bool)

  function Start(): Check { Check(0, false, [0, 0, 0], false, false) }

  /** One round of the loop. */
  function CheckStep(v: Check, e: Event): Check
    requires |v.count| == 3 && 0 <= v.depth <= MAX_DEPTH
  {
    match e
    case StreamStart => v
    case DocumentStart => v
    case DocumentEnd => v
    case StreamEnd => v.(done := true)
    case MappingStart =>
      v.(error := (v.depth == ROOT_DEPTH && v.count[v.depth] != 1) || v.depth >= MAX_DEPTH, depth := v.depth + 1)
    case MappingEnd =>
      if v.depth == 0 then v.(error := true)
      else
        v.(error := v.depth == MAX_DEPTH && !v.seen, seen := v.seen && v.depth != MAX_DEPTH,
           depth := v.depth - 1, count := v.count[v.depth - 1 := 0])
    case SequenceStart => v.(error := v.seen || v.depth != MAX_DEPTH || v.count[v.depth] != 1, seen := true)
    case SequenceEnd => v.(count := v.count[v.depth := 0])
    case Text(_) =>
      var n := v.count[v.depth];
      if v.depth == 0 || (v.depth == ROOT_DEPTH && n != 0) then
        v.(error := true, count := v.count[v.depth := n + 1])
      else v.(count := v.count[v.depth := if v.depth == MAX_DEPTH && n == 2 then 1 else n + 1])
  }

  /** The loop runs until the end of the stream or an error. */
  function CheckRun(v: Check, es: seq<Event>): Check
    decreases |es|
  {
    if es == [] || v.done || v.error || |v.count| != 3 || !(0 <= v.depth <= MAX_DEPTH) then v
    else CheckRun(CheckStep(v, es[0]), es[1..])
  }

  /** conf_validate_structure accepts the file. */
  predicate Accepted(root: Node) { var v := CheckRun(Start(), Stream(root)); v.done && !v.error }
}
