/** The two passes over the configuration as code. */
module ConfCode {
  import opened ConfEvents
  import C = ConfCheck
  import P = ConfParse

  /** conf_validate_structure, on the events of a file. In the event stream of a tree a mapping never ends
      at depth 0; for a sequence of events in which one does, the code would count below its array, and
      the model, here and in CheckStep, reports an error. */
  method ValidateStructure(es: seq<Event>) returns (ok: bool)
    ensures ok <==> !CheckRun(Start(), es).error
  {
    var done, error, seen, depth := false, false, false, 0;
    var count := new nat[3](_ => 0);
    var i := 0;
    assert count[..] == [0, 0, 0] && es[0..] == es;
    while i < |es| && !done && !error
      invariant 0 <= i <= |es| && (!error ==> 0 <= depth <= MAX_DEPTH)
      invariant CheckRun(Start(), es) == CheckRun(Check(depth, seen, count[..], error, done), es[i..])
    {
      ghost var v := Check(depth, seen, count[..], error, done);
      assert es[i..][1..] == es[i + 1..] && CheckRun(v, es[i..]) == CheckRun(CheckStep(v, es[i]), es[i + 1..]);
      match es[i] {
        case StreamStart =>
        case DocumentStart =>
        case DocumentEnd =>
        case StreamEnd => done := true;
        case MappingStart =>
          if depth == ROOT_DEPTH && count[depth] != 1 {
            error := true;
          } else if depth >= MAX_DEPTH {
            error := true;
          }
          depth := depth + 1;
        case MappingEnd =>
          if depth == MAX_DEPTH {
            if seen { seen := false; } else { error := true; }
          }
          if depth == 0 {
            error := true;
          } else {
            depth := depth - 1;
            count[depth] := 0;
          }
        case SequenceStart =>
          if seen {
            error := true;
          } else if depth != MAX_DEPTH {
            error := true;
          } else if count[depth] != 1 {
            error := true;
          }
          seen := true;
        case SequenceEnd => count[depth] := 0;
        case Text(_) =>
          if depth == 0 {
            error := true;
          } else if depth == ROOT_DEPTH && count[depth] != 0 {
            error := true;
          } else if depth == MAX_DEPTH && count[depth] == 2 {
            count[depth] := 0;
          }
          count[depth] := count[depth] + 1;
      }
      assert Check(depth, seen, count[..], error, done) == CheckStep(v, es[i]);
      i := i + 1;
    }
    ok := !error;
  }

  /** The parser: struct conf, as far as conf_parse_core uses it. */
  class Parser {
    const h: P.Handler
    var depth: int
    var seq_: bool
    var arg: seq<string>
    var calls: seq<P.Call>   // what conf_handler has seen; its answers depend on it

    ghost function View(status: P.Status): P.State
      reads this
    {
      P.State(depth, seq_, arg, calls, status)
    }

    /** As conf_begin_parse leaves it. */
    constructor (h: P.Handler)
      ensures this.h == h && View(P.Running) == P.Begun()
    {
      this.h, depth, seq_, arg, calls := h, 1, false, [], [];
    }

    /** conf_handler. */
    method Handle() returns (ok: bool)
      requires arg != []
      modifies this`calls
      ensures calls == old(calls) + [P.CallOf(arg)] && ok == h(old(calls), P.CallOf(arg))
    {
      ok := h(calls, P.CallOf(arg));
      calls := calls + [P.CallOf(arg)];
    }

    /** conf_parse_core on the events from i on, when it meets no fault; ok says whether it reached the end. */
    method Core(es: seq<Event>, i: nat) returns (ok: bool)
      requires i <= |es|
      requires var r := P.Run(h, View(P.Running), es[i..]); r.status.Finished? || r.status.Failed?
      modifies this
      ensures View(if ok then P.Finished else P.Failed) == P.Run(h, old(View(P.Running)), es[i..])
      decreases |es| - i
    {
      ghost var s := View(P.Running);
      NotDone(h, s, es, i);
      ghost var t := P.Step(h, s, es[i]);
      Next(h, s, es, i);
      var done, status := false, true;
      match es[i] {
        case MappingEnd =>
          depth := depth - 1;
          if depth == 1 {
            arg := arg[..|arg| - 1];
          } else if depth == 0 {
            done := true;
          }
        case MappingStart => depth := depth + 1;
        case SequenceStart => seq_ := true;
        case SequenceEnd =>
          arg := arg[..|arg| - 1];
          seq_ := false;
        case Text(t) => status := Scalar(t);
        case StreamStart => assert false;
        case StreamEnd => assert false;
        case DocumentStart => assert false;
        case DocumentEnd => assert false;
      }
      assert View(if !status then P.Failed else if done then P.Finished else P.Running) == t;
      if !status { return false; }
      if done { return true; }
      ok := Core(es, i + 1);
    }

    /** A scalar is pushed; a pool name and a complete directive are handled. */
    method Scalar(t: string) returns (ok: bool)
      requires !P.Step(h, View(P.Running), Text(t)).status.Fault?
      modifies this
      ensures View(if ok then P.Running else P.Failed) == P.Step(h, old(View(P.Running)), Text(t))
    {
      if |t| == 0 { return false; }
      arg := arg + [t];
      ok := true;
      if seq_ {
        ok := Leaf();
      } else if depth == ROOT_DEPTH {
        ok := Handle();
      } else if |arg| == depth + 1 {
        ok := Leaf();
      }
    }

    /** A complete directive is handled and taken off the stack. */
    method Leaf() returns (ok: bool)
      requires arg != [] && (!seq_ ==> |arg| >= 2)
      modifies this
      ensures View(if ok then P.Running else P.Failed) == P.Handle(h, old(View(P.Running)), true)
    {
      ok := Handle();
      arg := arg[..|arg| - 1];
      if !seq_ { arg := arg[..|arg| - 1]; }
    }
  }

  lemma Next(h: P.Handler, s: P.State, es: seq<Event>, i: nat)
    requires i < |es| && s.status.Running?
    ensures P.Run(h, s, es[i..]) == P.Run(h, P.Step(h, s, es[i]), es[i + 1..])
    ensures !P.Step(h, s, es[i]).status.Running? ==> P.Run(h, s, es[i..]) == P.Step(h, s, es[i])
  {
    assert es[i..][1..] == es[i + 1..];
  }

  lemma NotDone(h: P.Handler, s: P.State, es: seq<Event>, i: nat)
    requires i <= |es| && s.status.Running? && !P.Run(h, s, es[i..]).status.Running?
    ensures i < |es|
  {
  }
}
