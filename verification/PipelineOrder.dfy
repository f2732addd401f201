/** A server connection is first in, first out: the requests it holds keep their order, and they are
    answered in that order. */
module PipelineOrder {
  import opened Basics
  import opened Seqs
  import opened PipelineState
  import opened PipelineInv
  import opened PipelineQueues
  import opened PipelineMoves
  import opened PipelineConns
  import opened PipelineHandlers
  import opened PipelineServer
  import opened PipelineClient
  import opened PipelineRuns
  import opened PipelineEffects
  import opened PipelineMarks

  /** The requests a connection holds, the one that has waited longest first: those that were written,
      then those to be written. */
  function Line(s: State, sid: ConnId): seq<MsgId> {
    if sid in s.servers then s.servers[sid].outq + s.servers[sid].inq else []
  }

  // ---------- The members of a queue that are in a set, in their order ----------

  function Among(q: seq<MsgId>, keep: set<MsgId>): (r: seq<MsgId>) {
    if q == [] then []
    else if q[0] in keep then [q[0]] + Among(q[1..], keep)
    else Among(q[1..], keep)
  }

  lemma {:induction false} AmongIs(q: seq<MsgId>, keep: set<MsgId>, x: MsgId)
    ensures x in Among(q, keep) <==> x in q && x in keep
  {
    if q != [] {
      AmongIs(q[1..], keep, x);
      assert q == [q[0]] + q[1..];
    }
  }

  lemma {:induction false} AmongConcat(a: seq<MsgId>, b: seq<MsgId>, keep: set<MsgId>)
    ensures Among(a + b, keep) == Among(a, keep) + Among(b, keep)
  {
    if a == [] {
      assert a + b == b;
    } else {
      assert (a + b)[1..] == a[1..] + b;
      AmongConcat(a[1..], b, keep);
    }
  }

  lemma AmongFirst(x: MsgId, q: seq<MsgId>, keep: set<MsgId>)
    ensures Among([x] + q, keep) == if x in keep then [x] + Among(q, keep) else Among(q, keep)
  {
    assert ([x] + q)[1..] == q;
  }

  lemma {:induction false} AmongMeet(q: seq<MsgId>, a: set<MsgId>, b: set<MsgId>)
    ensures Among(Among(q, a), b) == Among(q, a * b)
  {
    if q != [] {
      AmongMeet(q[1..], a, b);
      if q[0] in a { AmongFirst(q[0], Among(q[1..], a), b); }
    }
  }

  lemma {:induction false} AmongAll(q: seq<MsgId>, keep: set<MsgId>)
    requires forall i :: 0 <= i < |q| ==> q[i] in keep
    ensures Among(q, keep) == q
  {
    if q != [] { AmongAll(q[1..], keep); }
  }

  lemma {:induction false} AmongNone(q: seq<MsgId>, keep: set<MsgId>)
    requires forall i :: 0 <= i < |q| ==> q[i] !in keep
    ensures Among(q, keep) == []
  {
    if q != [] { AmongNone(q[1..], keep); }
  }

  lemma {:induction false} AmongAgree(q: seq<MsgId>, a: set<MsgId>, b: set<MsgId>)
    requires forall x :: x in q ==> (x in a <==> x in b)
    ensures Among(q, a) == Among(q, b)
  {
    if q != [] {
      var x := q[0];
      assert x in q;
      AmongAgree(q[1..], a, b);
    }
  }

  function Below(k: MsgId): (r: set<MsgId>)
    ensures forall x :: x in r <==> 0 <= x < k
  {
    if k <= 0 then {} else Below(k - 1) + {k - 1}
  }

  lemma AllBelow(q: seq<MsgId>, k: MsgId)
    requires forall x :: x in q ==> 0 <= x < k
    ensures Among(q, Below(k)) == q
  {
    forall i | 0 <= i < |q| ensures q[i] in Below(k) { assert q[i] in q; }
    AmongAll(q, Below(k));
  }

  lemma LineOk(s: State, sid: ConnId)
    requires Inv(s, Closed)
    ensures NoDup(Line(s, sid))
    ensures forall x :: x in Line(s, sid) ==>
      x in s.reqs && 0 <= x < s.nextId && x !in s.hist.answers && !s.reqs[x].done
  {
    forall x | x in Line(s, sid) ensures x in s.reqs && 0 <= x < s.nextId && x !in s.hist.answers && !s.reqs[x].done {
      ServerEntry(s, sid, x, Closed);
      Unfold(s, Closed);
      assert ReqOk(s, x, s.reqs[x]);
    }
    if sid in s.servers { LineOnce(s, sid); }
  }

  lemma LineOnce(s: State, sid: ConnId)
    requires Inv(s, Closed) && sid in s.servers
    ensures NoDup(Line(s, sid))
  {
    Unfold(s, Closed);
    var v := s.servers[sid];
    assert ServerOk(s.reqs, sid, v);
    forall i, j | 0 <= i < j < |v.outq + v.inq| ensures (v.outq + v.inq)[i] != (v.outq + v.inq)[j] {
      if i < |v.outq| <= j { assert v.outq[i] in v.outq && v.inq[j - |v.outq|] in v.inq; }
    }
  }

  // ---------- One event ----------

  /** The request will not be answered any more. */
  ghost predicate Dead(s: State, x: MsgId) {
    x !in s.hist.answers && (x in s.reqs ==> s.reqs[x].done)
  }

  /** The requests that were in the line before, as they stand now. */
  function Remaining(s: State, sid: ConnId, s': State): seq<MsgId> {
    Among(Line(s', sid), Below(s.nextId))
  }

  ghost predicate Unchanged(s: State, sid: ConnId, s': State) {
    Remaining(s, sid, s') == Line(s, sid)
  }

  ghost predicate Unanswerable(s: State, sid: ConnId, s': State) {
    Remaining(s, sid, s') == [] && forall i :: 0 <= i < |Line(s, sid)| ==> Dead(s', Line(s, sid)[i])
  }

  ghost predicate FirstAnswered(s: State, sid: ConnId, s': State) {
    && Line(s, sid) != [] && Line(s, sid)[0] in s'.hist.answers
    && Remaining(s, sid, s') == Line(s, sid)[1..]
  }

  ghost predicate OneUnexpecting(s: State, sid: ConnId, s': State) {
    exists k :: 0 <= k < |Line(s, sid)|
      && Line(s, sid)[k] in s.reqs && s.reqs[Line(s, sid)[k]].noreply
      && Remaining(s, sid, s') == RemoveAt(Line(s, sid), k)
  }

  /** What a line can lose at once: nothing; the request that has waited longest, which is answered; one
      that expects no reply; or, when the connection closes, all, of which none is answered any more. */
  ghost predicate Turn(s: State, sid: ConnId, s': State) {
    || Unchanged(s, sid, s')
    || FirstAnswered(s, sid, s')
    || OneUnexpecting(s, sid, s')
    || Unanswerable(s, sid, s')
  }

  lemma SameLine(s: State, sid: ConnId, s': State)
    requires Inv(s, Closed) && Line(s', sid) == Line(s, sid)
    ensures Unchanged(s, sid, s')
  {
    LineOk(s, sid);
    AllBelow(Line(s, sid), s.nextId);
  }

  // Requests come in: only the new ones are new in any line.

  /** The line without the requests from k on. */
  function Since(s: State, sid: ConnId, k: MsgId): seq<MsgId> {
    Among(Line(s, sid), Below(k))
  }

  lemma PushedLine(v: ServerConn, id: MsgId, head: bool, k: MsgId)
    requires k <= id
    ensures var v' := Push(v, id, head); Among(v'.outq + v'.inq, Below(k)) == Among(v.outq + v.inq, Below(k))
  {
    var was, v' := Below(k), Push(v, id, head);
    AmongConcat(v.outq, v.inq, was);
    AmongConcat(v.outq, v'.inq, was);
    AmongFirst(id, v.inq, was);
    AmongFirst(id, [], was);
    AmongConcat(v.inq, [id], was);
    assert [id] + [] == [id];
  }

  lemma AddedLine(s: State, sid: ConnId, s': State, t: ConnId, head: bool, k: MsgId)
    requires t in s.servers && k <= s.nextId
    requires s'.servers == s.servers[t := Push(s.servers[t], s.nextId, head)]
    ensures Since(s', sid, k) == Since(s, sid, k)
  {
    PushedLine(s.servers[t], s.nextId, head, k);
  }

  lemma HandshakeLine(s: State, c: ConnId, t: ConnId, head: bool, now: int, open: Open, sid: ConnId, k: MsgId)
    requires Inv(s, open) && t in s.servers && k <= s.nextId
    ensures var s' := Handshake(s, c, t, head, now, open);
      s.nextId <= s'.nextId && Since(s', sid, k) == Since(s, sid, k)
  {
    AddedLine(s, sid, Handshake(s, c, t, head, now, open), t, head, k);
  }

  lemma ForwardLine(s: State, r: Req, route: Route, open: Open, sid: ConnId, k: MsgId)
    requires Inv(s, open) && Forwardable(s, r, open) && Reachable(s, route) && k <= s.nextId
    ensures var s' := Forward(s, r, route, open); s.nextId <= s'.nextId && Since(s', sid, k) == Since(s, sid, k)
  {
    match route
    case To(t, auth, now) =>
      var s1 := if auth then Handshake(s, r.client, t, false, now, open) else s;
      if auth { HandshakeLine(s, r.client, t, false, now, open, sid, k); }
      ForwardedTo(s1, r, t, now, open);
      AddedLine(s1, sid, ForwardTo(s1, r, t, now, open), t, false, k);
    case Nowhere(err) => ForwardFailed(s, r, err, open);
  }

  lemma {:induction false} FragmentsLine(s: State, o: MsgId, routes: seq<Route>, sid: ConnId, k: MsgId)
    requires Inv(s, OpenFor(o, routes)) && AllReachable(s, routes) && k <= s.nextId
    ensures Since(Fragments(s, o, routes), sid, k) == Since(s, sid, k)
    decreases |routes|
  {
    if routes != [] {
      FragmentsStep(s, o, routes);
      var r := FragReq(s.reqs[o].client, o, s.reqs[o].fragId);
      ForwardLine(s, r, routes[0], Opened(o, |routes|), sid, k);
      FragmentsLine(Forward(s, r, routes[0], Opened(o, |routes|)), o, routes[1..], sid, k);
    }
  }

  lemma ArrivalTurn(s: State, e: Event, sid: ConnId)
    requires Good(s) && Enabled(s, e) && (e.Single? || e.Vector? || e.Greeting?)
    ensures Unchanged(s, sid, Step(s, e))
  {
    SameLine(s, sid, s);
    match e
    case Single(c, noreply, route) =>
      Fresh(s, Closed);
      ForwardLine(s, SingleReq(c, noreply), route, Closed, sid, s.nextId);
    case Vector(c, routes) => VectorLine(s, c, routes, sid);
    case Greeting(c, t, head, now) => HandshakeLine(s, c, t, head, now, Closed, sid, s.nextId);
  }

  lemma VectorLine(s: State, c: ConnId, routes: seq<Route>, sid: ConnId)
    requires Inv(s, Closed) && c in s.clients && routes != [] && AllReachable(s, routes)
    ensures Since(RecvVector(s, c, routes), sid, s.nextId) == Since(s, sid, s.nextId)
  {
    FragmentsLine(OpenVector(s, c, routes), s.nextId, routes, sid, s.nextId);
  }

  // Requests go out and answers come in.

  lemma SentTurn(s: State, t: ConnId, sid: ConnId)
    requires Inv(s, Closed) && t in s.servers && t in s.hist.wire
    ensures Turn(s, sid, ServerSend(s, t))
  {
    var s', v := ServerSend(s, t), s.servers[t];
    if v.inq == [] || t != sid {
      if v.inq != [] { SentOut(s, t); }
      SameLine(s, sid, s');
    } else {
      SentOut(s, t);
      var id := v.inq[0];
      if s.reqs[id].noreply {
        WrittenOff(s, t);
      } else {
        Assoc(v.outq, [id], s'.servers[t].inq);
        SameLine(s, sid, s');
      }
    }
  }

  lemma WrittenOff(s: State, sid: ConnId)
    requires Inv(s, Closed) && sid in s.servers && sid in s.hist.wire && s.servers[sid].inq != []
    requires s.servers[sid].inq[0] in s.reqs && s.reqs[s.servers[sid].inq[0]].noreply
    ensures OneUnexpecting(s, sid, ServerSend(s, sid))
  {
    SentOut(s, sid);
    var s', v, l := ServerSend(s, sid), s.servers[sid], Line(s, sid);
    var k := |v.outq|;
    assert l[k] == v.inq[0];
    assert v.inq[1..] == s'.servers[sid].inq;
    assert Line(s', sid) == RemoveAt(l, k);
    LineOk(s, sid);
    RemoveAtMembers(l, k);
    AllBelow(RemoveAt(l, k), s.nextId);
  }

  lemma AnswerRecorded(s: State, t: ConnId, x: int, bad: bool)
    requires Inv(s, Closed) && t in s.servers && t in s.hist.wire && s.hist.wire[t] != []
    ensures Respond(s, t, x, bad).hist.answers == s.hist.answers[s.hist.wire[t][0] := x]
  {
    AnswerSettles(s, t, x, bad);
  }

  lemma ResponseTurn(s: State, t: ConnId, x: int, bad: bool, sid: ConnId)
    requires Inv(s, Closed) && t in s.servers && t in s.hist.wire && s.hist.wire[t] != []
    ensures Turn(s, sid, Respond(s, t, x, bad))
  {
    AnswerDelivered(s, t, x, bad);
    var s' := Respond(s, t, x, bad);
    if sid != t {
      SameLine(s, sid, s');
    } else {
      AnswerRecorded(s, t, x, bad);
      var v, l := s.servers[t], Line(s, t);
      assert l[0] == v.outq[0] && Line(s', t) == l[1..];
      LineOk(s, t);
      assert forall x :: x in l[1..] ==> x in l;
      AllBelow(l[1..], s.nextId);
    }
  }

  // Connections close.

  /** What closing connections does to a line. */
  ghost predicate Closes(s: State, sid: ConnId, s': State) {
    Unchanged(s, sid, s') || Unanswerable(s, sid, s')
  }

  lemma EmptiedDead(s: State, sid: ConnId, err: int, x: MsgId, s': State)
    requires Inv(s, Closed) && sid in s.servers && x in Line(s, sid)
    requires Emptied(s, sid, err, x, s') && s'.hist.answers == s.hist.answers
    ensures Dead(s', x)
  {
    LineOk(s, sid);
  }

  lemma CloseTurn(s: State, t: ConnId, err: int, sid: ConnId)
    requires Inv(s, Closed) && t in s.servers
    ensures Closes(s, sid, CloseServer(s, t, err))
  {
    CloseSame(s, t, err);
    var s' := CloseServer(s, t, err);
    if sid != t {
      SameLine(s, sid, s');
    } else {
      var l := Line(s, t);
      forall i | 0 <= i < |l| ensures Dead(s', l[i]) {
        assert l[i] in l;
        CloseResolves(s, t, err, l[i]);
        EmptiedDead(s, t, err, l[i], s');
      }
    }
  }

  lemma ExpireSame(s: State)
    requires Inv(s, Closed) && s.timers != []
    requires s.timers[0].id in s.reqs && !s.reqs[s.timers[0].id].done
    ensures var s' := Expire(s); s'.hist.answers == s.hist.answers && s'.servers == s.servers - {s.timers[0].conn}
    ensures Expire(s).nextId == s.nextId
  {
    FirstTimer(s);
    var t := s.timers[0];
    InvUnwire(s, t.conn);
    FailAllSame(CancelDone(Unwire(s, t.conn), t.id), t.conn, ETIMEDOUT);
    FailAllServers(CancelDone(Unwire(s, t.conn), t.id), t.conn, ETIMEDOUT);
  }

  lemma ExpireTurn(s: State, sid: ConnId)
    requires Inv(s, Closed) && s.timers != []
    requires s.timers[0].id in s.reqs && !s.reqs[s.timers[0].id].done
    ensures Closes(s, sid, Expire(s))
  {
    ExpireSame(s);
    var s', t := Expire(s), s.timers[0].conn;
    if sid != t {
      SameLine(s, sid, s');
    } else {
      var l := Line(s, t);
      forall i | 0 <= i < |l| ensures Dead(s', l[i]) {
        assert l[i] in l;
        ExpiredFails(s, l[i]);
        EmptiedDead(s, t, ETIMEDOUT, l[i], s');
      }
    }
  }

  /** In a state where no request is new, what remains of a line is the line. */
  lemma NoneNew(s: State, sid: ConnId, s': State)
    requires Inv(s', Closed) && s'.nextId == s.nextId
    ensures Remaining(s, sid, s') == Line(s', sid)
  {
    SameLine(s', sid, s');
  }

  lemma ClosesBoth(s: State, sid: ConnId, s1: State, s2: State)
    requires Inv(s1, Closed) && s1.nextId == s.nextId && Closes(s, sid, s1) && Closes(s1, sid, s2)
    requires forall i :: 0 <= i < |Line(s, sid)| ==> Line(s, sid)[i] < s.nextId && Later(s1, Line(s, sid)[i], s2)
    ensures Closes(s, sid, s2)
  {
    NoneNew(s, sid, s1);
    if Unanswerable(s, sid, s1) {
      forall i | 0 <= i < |Line(s, sid)| ensures Dead(s2, Line(s, sid)[i]) {
        assert Dead(s1, Line(s, sid)[i]) && Later(s1, Line(s, sid)[i], s2);
      }
    }
  }

  lemma ClosesAgain(s: State, sid: ConnId, s1: State, nows: seq<int>)
    requires Inv(s, Closed) && Inv(s1, Closed) && |s1.timers| < |nows| && s1.nextId == s.nextId
    requires Closes(s, sid, s1) && Closes(s1, sid, Timeouts(s1, nows).0)
    ensures Closes(s, sid, Timeouts(s1, nows).0)
  {
    LineOk(s, sid);
    var l, s' := Line(s, sid), Timeouts(s1, nows).0;
    forall i | 0 <= i < |l| ensures l[i] < s.nextId && Later(s1, l[i], s') {
      assert l[i] in l;
      TimeoutsLater(s1, nows, l[i]);
    }
    ClosesBoth(s, sid, s1, s');
  }

  lemma {:induction false} TimeoutsTurn(s: State, nows: seq<int>, sid: ConnId)
    requires Inv(s, Closed) && |s.timers| < |nows|
    ensures Closes(s, sid, Timeouts(s, nows).0) && Timeouts(s, nows).0.nextId == s.nextId
    decreases |s.timers|
  {
    SameLine(s, sid, s);
    if s.timers != [] {
      FirstTimer(s);
      if s.reqs[s.timers[0].id].done {
        TimeoutsTurn(DropTimer(s), nows, sid);
        SameLine(s, sid, DropTimer(s));
        ClosesAgain(s, sid, DropTimer(s), nows);
      } else if nows[0] >= s.timers[0].deadline {
        ExpireTurn(s, sid);
        ExpireSame(s);
        TimeoutsTurn(Expire(s), nows[1..], sid);
        ClosesAgain(s, sid, Expire(s), nows[1..]);
      }
    }
  }

  /** Every event gives every line its turn, and most leave it as it is. */
  lemma StepTurn(s: State, e: Event, sid: ConnId)
    requires Good(s) && Enabled(s, e)
    ensures Turn(s, sid, Step(s, e))
  {
    match e
    case ClientOpens(c) => SameLine(s, sid, Step(s, e));
    case ServerOpens(t) => SameLine(s, sid, Step(s, e));
    case Discarded => SameLine(s, sid, Step(s, e));
    case NoForward(c) => SameLine(s, sid, Step(s, e));
    case Single(_, _, _) => ArrivalTurn(s, e, sid);
    case Vector(_, _) => ArrivalTurn(s, e, sid);
    case Greeting(_, _, _, _) => ArrivalTurn(s, e, sid);
    case Sent(t) => SentTurn(s, t, sid);
    case Response(t, x, bad) => ResponseTurn(s, t, x, bad, sid);
    case ServerCloses(t, err) => CloseTurn(s, t, err, sid);
    case ClientCloses(c) => SameLine(s, sid, Step(s, e));
    case Written(c, _, _, _, _) => SameLine(s, sid, Step(s, e));
    case Timeout(nows) => TimeoutsTurn(s, nows, sid);
  }

  // ---------- Runs: the order of a line ----------

  lemma {:induction false} AmongBut(q: seq<MsgId>, keep: set<MsgId>, k: nat)
    requires NoDup(q) && k < |q| && forall i :: 0 <= i < |q| ==> q[i] in keep
    ensures Among(q, keep - {q[k]}) == RemoveAt(q, k)
  {
    var r := q[1..];
    if k == 0 {
      AmongAll(r, keep - {q[0]});
      assert RemoveAt(q, 0) == r;
    } else {
      AmongBut(r, keep, k - 1);
      assert RemoveAt(q, k) == [q[0]] + RemoveAt(r, k - 1);
    }
  }

  lemma TurnKeep(s: State, sid: ConnId, s': State) returns (keep: set<MsgId>)
    requires Inv(s, Closed) && Turn(s, sid, s')
    ensures Remaining(s, sid, s') == Among(Line(s, sid), keep)
  {
    LineOk(s, sid);
    var l, all := Line(s, sid), Below(s.nextId);
    forall i | 0 <= i < |l| ensures l[i] in all { assert l[i] in l; }
    if Unchanged(s, sid, s') {
      AmongAll(l, all);
      keep := all;
    } else if Remaining(s, sid, s') == [] {
      AmongNone(l, {});
      keep := {};
    } else {
      var k: nat :| k < |l| && Remaining(s, sid, s') == RemoveAt(l, k);
      AmongBut(l, all, k);
      keep := all - {l[k]};
    }
  }

  /** What is left of a line after a run that goes on with one more event. */
  lemma ThinnedMore(l: seq<MsgId>, keep: set<MsgId>, k: MsgId, s: State, s': State, sid: ConnId)
    returns (keep': set<MsgId>)
    requires Inv(s, Closed) && Turn(s, sid, s') && k <= s.nextId && Since(s, sid, k) == Among(l, keep)
    ensures Since(s', sid, k) == Among(l, keep')
  {
    var more := TurnKeep(s, sid, s');
    AmongMeet(Line(s', sid), Below(s.nextId), Below(k));
    assert Below(s.nextId) * Below(k) == Below(k);
    AmongMeet(Line(s, sid), more, Below(k));
    AmongMeet(Line(s, sid), Below(k), more);
    assert more * Below(k) == Below(k) * more;
    AmongMeet(l, keep, more);
    keep' := keep * more;
  }

  lemma {:induction false} RunThins(l: seq<MsgId>, keep: set<MsgId>, k: MsgId, s: State, es: seq<Event>, sid: ConnId)
    returns (keep': set<MsgId>)
    requires Good(s) && Possible(s, es) && k <= s.nextId && Since(s, sid, k) == Among(l, keep)
    ensures Since(Run(s, es), sid, k) == Among(l, keep')
    decreases |es|
  {
    keep' := keep;
    if es != [] {
      var s1 := Step(s, es[0]);
      StepTurn(s, es[0], sid);
      StepLater(s, es[0], 0);
      var keep1 := ThinnedMore(l, keep, k, s, s1, sid);
      keep' := RunThins(l, keep1, k, s1, es[1..], sid);
    }
  }

  /** The members of a queue, as a set. */
  function SetOf(q: seq<MsgId>): set<MsgId> {
    set x | x in q
  }

  /** Between any two states of a run, the requests a connection holds in both stand in the same order,
      whatever was sent, answered, added or closed meanwhile. */
  lemma OrderKept(timeout: int, before: seq<Event>, after: seq<Event>, sid: ConnId)
    requires Possible(Start(timeout), before) && Possible(Run(Start(timeout), before), after)
    ensures var l := Line(Run(Start(timeout), before), sid);
      var l' := Line(Run(Run(Start(timeout), before), after), sid);
      Among(l', SetOf(l)) == Among(l, SetOf(l'))
  {
    var s := Run(Start(timeout), before);
    var s' := Run(s, after);
    var l, l', all := Line(s, sid), Line(s', sid), Below(s.nextId);
    SameLine(s, sid, s);
    LineOk(s, sid);
    AllBelow(l, s.nextId);
    var keep := RunThins(l, all, s.nextId, s, after, sid);
    Common(l, l', all, keep);
  }

  lemma Common(l: seq<MsgId>, l': seq<MsgId>, all: set<MsgId>, keep: set<MsgId>)
    requires Among(l', all) == Among(l, keep) && forall x :: x in l ==> x in all
    ensures Among(l', SetOf(l)) == Among(l, SetOf(l'))
  {
    forall x ensures x in l' && x in all <==> x in l && x in keep {
      AmongIs(l', all, x);
      AmongIs(l, keep, x);
    }
    AmongAgree(l', SetOf(l), all);
    AmongAgree(l, SetOf(l'), keep);
  }

  // ---------- Runs: the order of the answers ----------

  /** The requests of a line that expect a reply, in their order. */
  function Expecting(s: State, sid: ConnId): seq<MsgId> {
    Among(Line(s, sid), set x | x in s.reqs && !s.reqs[x].noreply)
  }

  /** Where the requests q of a line are now: the first m have been answered, those from n on are still in
      the line, in order, and those between, if any, will not be answered: the connection has closed, and
      none is in the line any more. */
  ghost predicate Served(q: seq<MsgId>, s: State, sid: ConnId, m: nat, n: nat) {
    && m <= n <= |q| && (m < n ==> n == |q|)
    && Among(Line(s, sid), SetOf(q)) == q[n..]
    && (forall i :: 0 <= i < m ==> q[i] in s.hist.answers)
    && (forall i :: m <= i < n ==> Dead(s, q[i]))
    && (forall i :: 0 <= i < |q| ==> 0 <= q[i] < s.nextId && (q[i] in s.reqs ==> !s.reqs[q[i]].noreply))
  }

  lemma {:induction false} AmongRemoved(q: seq<MsgId>, keep: set<MsgId>, k: nat)
    requires k < |q| && q[k] !in keep
    ensures Among(RemoveAt(q, k), keep) == Among(q, keep)
  {
    if k == 0 {
      assert RemoveAt(q, 0) == q[1..];
    } else {
      AmongRemoved(q[1..], keep, k - 1);
      assert RemoveAt(q, k) == [q[0]] + RemoveAt(q[1..], k - 1);
      AmongFirst(q[0], RemoveAt(q[1..], k - 1), keep);
    }
  }

  /** What a line still holds of q, seen through what remains of it. */
  lemma SeenThrough(q: seq<MsgId>, s: State, sid: ConnId, s': State)
    requires forall i :: 0 <= i < |q| ==> 0 <= q[i] < s.nextId
    ensures Among(Line(s', sid), SetOf(q)) == Among(Remaining(s, sid, s'), SetOf(q))
  {
    AmongMeet(Line(s', sid), Below(s.nextId), SetOf(q));
    assert Below(s.nextId) * SetOf(q) == SetOf(q);
  }

  /** What goes on as before: those answered are, those dead are dead, and no request changes its kind. */
  lemma ServedOn(q: seq<MsgId>, s: State, sid: ConnId, m: nat, n: nat, s': State)
    requires Served(q, s, sid, m, n) && forall i :: 0 <= i < |q| ==> Later(s, q[i], s')
    ensures forall i :: 0 <= i < m ==> q[i] in s'.hist.answers
    ensures forall i :: m <= i < n ==> Dead(s', q[i])
    ensures forall i :: 0 <= i < |q| ==> 0 <= q[i] < s'.nextId && (q[i] in s'.reqs ==> !s'.reqs[q[i]].noreply)
  {
    assert Lock(3, 0);
  }

  lemma ServedSame(q: seq<MsgId>, s: State, sid: ConnId, m: nat, n: nat, s': State)
    requires Served(q, s, sid, m, n) && forall i :: 0 <= i < |q| ==> Later(s, q[i], s')
    requires Among(Remaining(s, sid, s'), SetOf(q)) == Among(Line(s, sid), SetOf(q))
    ensures Served(q, s', sid, m, n)
  {
    SeenThrough(q, s, sid, s');
    ServedOn(q, s, sid, m, n, s');
  }

  lemma ServedFirst(q: seq<MsgId>, s: State, sid: ConnId, m: nat, n: nat, s': State) returns (m': nat, n': nat)
    requires Served(q, s, sid, m, n) && forall i :: 0 <= i < |q| ==> Later(s, q[i], s')
    requires FirstAnswered(s, sid, s')
    ensures Served(q, s', sid, m', n')
  {
    var l := Line(s, sid);
    if l[0] in q {
      SeenThrough(q, s, sid, s');
      ServedOn(q, s, sid, m, n, s');
      assert q[n..][0] == l[0];
      assert q[n..][1..] == q[n + 1..];
      m', n' := n + 1, n + 1;
    } else {
      ServedSame(q, s, sid, m, n, s');
      m', n' := m, n;
    }
  }

  lemma ServedEmptied(q: seq<MsgId>, s: State, sid: ConnId, m: nat, n: nat, s': State)
    requires Served(q, s, sid, m, n) && forall i :: 0 <= i < |q| ==> Later(s, q[i], s')
    requires Unanswerable(s, sid, s')
    ensures Served(q, s', sid, m, |q|)
  {
    SeenThrough(q, s, sid, s');
    ServedOn(q, s, sid, m, n, s');
    var l := Line(s, sid);
    forall i | n <= i < |q| ensures Dead(s', q[i]) {
      assert q[n..][i - n] == q[i];
      AmongIs(l, SetOf(q), q[i]);
    }
  }

  lemma ServedAfter(q: seq<MsgId>, s: State, sid: ConnId, m: nat, n: nat, s': State) returns (m': nat, n': nat)
    requires Served(q, s, sid, m, n) && Turn(s, sid, s') && forall i :: 0 <= i < |q| ==> Later(s, q[i], s')
    ensures Served(q, s', sid, m', n')
  {
    m', n' := m, n;
    if Unchanged(s, sid, s') {
      ServedSame(q, s, sid, m, n, s');
    } else if FirstAnswered(s, sid, s') {
      m', n' := ServedFirst(q, s, sid, m, n, s');
    } else if Unanswerable(s, sid, s') {
      ServedEmptied(q, s, sid, m, n, s');
      n' := |q|;
    } else {
      var l := Line(s, sid);
      var k: nat :| k < |l| && l[k] in s.reqs && s.reqs[l[k]].noreply && Remaining(s, sid, s') == RemoveAt(l, k);
      AmongRemoved(l, SetOf(q), k);
      ServedSame(q, s, sid, m, n, s');
    }
  }

  lemma {:induction false} RunServed(q: seq<MsgId>, s: State, es: seq<Event>, sid: ConnId, m: nat, n: nat)
    returns (m': nat, n': nat)
    requires Good(s) && Possible(s, es) && Served(q, s, sid, m, n)
    ensures Served(q, Run(s, es), sid, m', n')
    decreases |es|
  {
    m', n' := m, n;
    if es != [] {
      var s1 := Step(s, es[0]);
      StepTurn(s, es[0], sid);
      forall i | 0 <= i < |q| ensures Later(s, q[i], s1) { StepLater(s, es[0], q[i]); }
      m', n' := ServedAfter(q, s, sid, m, n, s1);
      m', n' := RunServed(q, s1, es[1..], sid, m', n');
    }
  }

  lemma ServedNone(s: State, sid: ConnId)
    requires Inv(s, Closed)
    ensures Served(Expecting(s, sid), s, sid, 0, 0)
  {
    LineOk(s, sid);
    var l, q, keep := Line(s, sid), Expecting(s, sid), set x | x in s.reqs && !s.reqs[x].noreply;
    forall x ensures x in q <==> x in l && x in keep { AmongIs(l, keep, x); }
    AmongAgree(l, SetOf(q), keep);
    assert q[0..] == q;
    forall i | 0 <= i < |q| ensures 0 <= q[i] < s.nextId && (q[i] in s.reqs ==> !s.reqs[q[i]].noreply) {
      assert q[i] in q;
    }
  }

  /**
    First in, first out. Take the requests a connection holds at some point of a run that expect a reply,
    oldest first, and let the run go on. The backend has answered some number m of them by then, and
    they are the first m: no request is answered before one that was forwarded ahead of it. If one left
    the line without an answer, the connection has closed and none of those behind it is there either;
    otherwise those that were not answered are all still there, in their order.
  */
  lemma FirstInFirstOut(timeout: int, before: seq<Event>, after: seq<Event>, sid: ConnId) returns (m: nat)
    requires Possible(Start(timeout), before) && Possible(Run(Start(timeout), before), after)
    ensures var s := Run(Start(timeout), before);
      var s', q := Run(s, after), Expecting(s, sid);
      && m <= |q|
      && (forall i :: 0 <= i < |q| ==> (q[i] in s'.hist.answers <==> i < m))
      && var left := Among(Line(s', sid), SetOf(q));
      left == q[m..] || left == []
  {
    var s := Run(Start(timeout), before);
    var q, s' := Expecting(s, sid), Run(s, after);
    ServedNone(s, sid);
    var n: nat;
    m, n := RunServed(q, s, after, sid, 0, 0);
    LineOk(s', sid);
    forall i | m <= i < |q| ensures q[i] !in s'.hist.answers {
      if i >= n {
        assert q[n..][i - n] == q[i];
        AmongIs(Line(s', sid), SetOf(q), q[i]);
      }
    }
  }
}
