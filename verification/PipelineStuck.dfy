/**
  When a split request is answered, over whole runs. A fragment that could be sent nowhere (req_forward_error)
  is done at once and never counted; its vector is never answered, and no reply behind it either.
*/
module PipelineStuck {
  import opened Basics
  import opened Seqs
  import opened PipelineState
  import opened PipelineInv
  import opened PipelineQueues
  import opened PipelineHandlers
  import opened PipelineClient
  import opened PipelineRuns
  import opened PipelineEffects
  import opened PipelineMarks
  import opened PipelineCounts

  // ---------- What req_done asks of an owner ----------

  /** Every fragment was sent to a server and is done. */
  ghost predicate AllAnswered(s: State, o: MsgId)
    requires o in s.hist.vectors
  {
    forall x :: x in s.hist.vectors[o] ==> x !in s.hist.stuck && x in s.reqs && s.reqs[x].done
  }

  lemma MembersDone(s: State, c: ConnId, o: MsgId)
    requires Inv(s, Closed) && c in s.clients && o in s.clients[c] && Waiting(s, o) && AllAnswered(s, o)
    requires Live(s.reqs, s.clients[c])
    ensures AllDone(s.reqs, s.clients[c], s.reqs[o].fragId)
  {
    WaitingOwner(s, o, Closed);
    Entry(s, c, o, Closed);
    var q := s.clients[c];
    forall i | 0 <= i < |q| && s.reqs[q[i]].fragId == s.reqs[o].fragId ensures s.reqs[q[i]].done {
      assert q[i] in q;
      if q[i] != o { MembersAre(s.reqs, s.hist, q, o, q[i], Closed); }
    }
  }

  lemma AsksAll(s: State, c: ConnId, o: MsgId)
    requires Inv(s, Closed) && c in s.clients && o in s.clients[c] && Waiting(s, o) && Tally(s, o)
    ensures ReqDone(s, c, o, Closed).1 <==> AllAnswered(s, o)
  {
    Entry(s, c, o, Closed);
    CountFull(s, o, Closed);
    if AllAnswered(s, o) { MembersDone(s, c, o); }
  }

  lemma StartTally(timeout: int, o: MsgId)
    ensures Tally(Start(timeout), o)
  {
  }

  /** After any run, nfrag_done of a vector's owner is the number of its fragments that were sent to a server and
      are done; and req_done says yes for the owner if and only if that is all of them. */
  lemma DoneMeans(timeout: int, es: seq<Event>, c: ConnId, o: MsgId)
    requires Possible(Start(timeout), es)
    requires var s := Run(Start(timeout), es); c in s.clients && o in s.clients[c] && Waiting(s, o)
    ensures var s := Run(Start(timeout), es);
      && s.reqs[o].nfragDone == |Counting(s, o)| && s.reqs[o].nfrag == |s.hist.vectors[o]|
      && (ReqDone(s, c, o, Closed).1 <==> AllAnswered(s, o))
  {
    var s := Run(Start(timeout), es);
    StartTally(timeout, o);
    RunTally(Start(timeout), es, o);
    WaitingOwner(s, o, Closed);
    AsksAll(s, c, o);
  }

  // ---------- Which fragments are never counted ----------

  ghost predicate SomeNowhere(routes: seq<Route>) {
    exists i :: 0 <= i < |routes| && routes[i].Nowhere?
  }

  /** The fragments of a new vector that are never counted are those without a server. */
  lemma RoutesDecide(s: State, c: ConnId, routes: seq<Route>)
    requires Inv(s, Closed) && c in s.clients && routes != [] && AllReachable(s, routes)
    ensures var s', o := RecvVector(s, c, routes), s.nextId;
      && o in s'.hist.vectors && |s'.hist.vectors[o]| == |routes| && c in s'.clients && o in s'.clients[c]
      && (forall i :: 0 <= i < |routes| ==> (s'.hist.vectors[o][i] in s'.hist.stuck <==> routes[i].Nowhere?))
  {
    var s', o := RecvVector(s, c, routes), s.nextId;
    VectorReceived(s, c, routes);
    forall i | 0 <= i < |routes| ensures s'.hist.vectors[o][i] in s'.hist.stuck <==> routes[i].Nowhere? {
      var x := s'.hist.vectors[o][i];
      assert Placed(s', x, o, routes[i]);
      NotStuck(s', x);
    }
  }

  lemma NotStuck(s: State, x: MsgId)
    requires Inv(s, Closed) && x in s.reqs
    ensures x in s.hist.stuck ==> s.reqs[x].done
  {
    Unfold(s, Closed);
    assert PairedAt(s.hist, x, s.reqs[x]);
  }

  // ---------- A vector that is never answered ----------

  /** Everything in `sent` comes before position k of `arrived`. */
  ghost predicate AllBefore(sent: seq<MsgId>, arrived: seq<MsgId>, k: nat)
    requires k <= |arrived|
  {
    forall i :: 0 <= i < |sent| ==> sent[i] in arrived[..k]
  }

  lemma SentBefore(arrived: seq<MsgId>, sent: seq<MsgId>, gone: set<MsgId>, k: nat)
    requires k < |arrived| && arrived[k] !in gone && arrived[k] !in sent && sent <= Without(arrived, gone)
    ensures AllBefore(sent, arrived, k)
  {
    var a, o, b := arrived[..k], arrived[k], arrived[k + 1..];
    assert arrived == a + ([o] + b);
    WithoutConcat(a, [o] + b, gone);
    WithoutConcat([o], b, gone);
    WithoutNone([o], gone);
    var w := Without(arrived, gone);
    var n := |Without(a, gone)|;
    assert w[n] == o;
    assert |sent| <= n;
    forall i | 0 <= i < |sent| ensures sent[i] in a {
      assert sent[i] == w[i] == Without(a, gone)[i];
    }
  }

  /** What becomes of owner o of a client c: not coalesced, not replied to; it stays in the queue as long as the
      client is there; and everything the client was sent arrived before it. */
  ghost predicate Unanswered(s: State, c: ConnId, o: MsgId) {
    && o !in s.hist.coalesced && o !in s.hist.replies
    && (c in s.clients ==> o in s.clients[c])
    && c in s.hist.arrived && c in s.hist.sent && o !in s.hist.sent[c]
    && var arrived := s.hist.arrived[c];
       exists k :: 0 <= k < |arrived| && arrived[k] == o && AllBefore(s.hist.sent[c], arrived, k)
  }

  lemma StillUnanswered(s: State, c: ConnId, o: MsgId)
    requires Inv(s, Closed) && Tally(s, o) && o in s.hist.vectors && !AllSent(s, o) && o !in s.hist.parts
    requires c in s.hist.arrived && o in s.hist.arrived[c]
    ensures Unanswered(s, c, o)
  {
    Unfold(s, Closed);
    assert LoggedAt(s, c);
    assert o in s.hist.replies ==> ReplyFits(s.hist, o, s.hist.replies[o]);
    var arrived, sent, gone := s.hist.arrived[c], s.hist.sent[c], s.hist.empty + s.hist.dropped;
    var k :| 0 <= k < |arrived| && arrived[k] == o;
    SentBefore(arrived, sent, gone, k);
    if c in s.clients { assert o in sent + s.clients[c]; }
  }

  lemma InArrived(s: State, c: ConnId, o: MsgId)
    requires Inv(s, Closed) && c in s.clients && o in s.clients[c]
    ensures c in s.hist.arrived && o in s.hist.arrived[c] && o < s.nextId
  {
    Unfold(s, Closed);
    assert LoggedAt(s, c);
    Entry(s, c, o, Closed);
    assert o in s.hist.sent[c] + s.clients[c];
  }

  lemma StuckForever(s: State, es: seq<Event>, c: ConnId, o: MsgId)
    requires Good(s) && Possible(s, es) && Tally(s, o)
    requires c in s.clients && o in s.clients[c] && o in s.hist.vectors && o !in s.hist.parts && !AllSent(s, o)
    ensures Unanswered(Run(s, es), c, o)
  {
    var s' := Run(s, es);
    InArrived(s, c, o);
    RunLater(s, es, o);
    RunTally(s, es, o);
    assert Lock(3, 0);
    var x :| x in s.hist.vectors[o] && x in s.hist.stuck;
    assert x in s'.hist.vectors[o] && x in s'.hist.stuck;
    StillUnanswered(s', c, o);
  }

  lemma AfterVector(timeout: int, before: seq<Event>, c: ConnId, routes: seq<Route>)
    requires Possible(Start(timeout), before) && Enabled(Run(Start(timeout), before), Vector(c, routes))
    ensures var s := Run(Start(timeout), before);
      var s1, o := Step(s, Vector(c, routes)), s.nextId;
      && Good(s1) && Tally(s1, o) && o in s1.hist.vectors && c in s1.clients && o in s1.clients[c]
      && o !in s1.hist.parts && (AllSent(s1, o) <==> !SomeNowhere(routes))
  {
    var s := Run(Start(timeout), before);
    var s1, o := Step(s, Vector(c, routes)), s.nextId;
    StartTally(timeout, o);
    RunTally(Start(timeout), before, o);
    StepTally(s, Vector(c, routes), o);
    RoutesSent(s, c, routes);
    NotPart(s1, c, o);
  }

  lemma RoutesSent(s: State, c: ConnId, routes: seq<Route>)
    requires Inv(s, Closed) && c in s.clients && routes != [] && AllReachable(s, routes)
    ensures var s', o := RecvVector(s, c, routes), s.nextId;
      o in s'.hist.vectors && c in s'.clients && o in s'.clients[c] && (AllSent(s', o) <==> !SomeNowhere(routes))
  {
    var s', o := RecvVector(s, c, routes), s.nextId;
    RoutesDecide(s, c, routes);
    var v := s'.hist.vectors[o];
    if SomeNowhere(routes) {
      var i :| 0 <= i < |routes| && routes[i].Nowhere?;
      var x := v[i];
      assert x in v && x in s'.hist.stuck;
      assert !AllSent(s', o);
    }
    if !AllSent(s', o) {
      var x :| x in v && x in s'.hist.stuck;
      var i :| 0 <= i < |v| && v[i] == x;
      assert v[i] in s'.hist.stuck && routes[i].Nowhere?;
      assert SomeNowhere(routes);
    }
  }

  lemma NotPart(s: State, c: ConnId, o: MsgId)
    requires Inv(s, Closed) && c in s.clients && o in s.clients[c] && o in s.hist.vectors
    ensures o !in s.hist.parts
  {
    Entry(s, c, o, Closed);
  }

  /** A request that is split so that one of its fragments can be sent nowhere is never answered, in any
      continuation of any run, and neither is anything that came behind it. */
  lemma NeverAnswered(timeout: int, before: seq<Event>, c: ConnId, routes: seq<Route>, after: seq<Event>)
    requires Possible(Start(timeout), before) && Enabled(Run(Start(timeout), before), Vector(c, routes))
    requires Possible(Step(Run(Start(timeout), before), Vector(c, routes)), after)
    requires SomeNowhere(routes)
    ensures var s := Run(Start(timeout), before);
      Unanswered(Run(Step(s, Vector(c, routes)), after), c, s.nextId)
  {
    var s := Run(Start(timeout), before);
    AfterVector(timeout, before, c, routes);
    StuckForever(Step(s, Vector(c, routes)), after, c, s.nextId);
  }

  /** The vector as long as it waits: its fragments are those it was split into. */
  lemma SameFragments(s: State, es: seq<Event>, c: ConnId, o: MsgId)
    requires Good(s) && Possible(s, es) && c in s.clients && o in s.clients[c] && o in s.hist.vectors
    requires Waiting(Run(s, es), o)
    ensures Waiting(s, o) && Run(s, es).hist.vectors[o] == s.hist.vectors[o]
  {
    var s' := Run(s, es);
    InArrived(s, c, o);
    RunLater(s, es, o);
    assert Lock(3, 0);
    WaitingOwner(s', o, Closed);
    WaitingOwner(s, o, Closed);
  }

  /** In any state in which a split request has not been answered, req_done says yes for it if and only if
      every fragment had a route to a server when it came in, and is done by now. */
  lemma AnsweredExactlyIf(timeout: int, before: seq<Event>, c: ConnId, routes: seq<Route>, after: seq<Event>)
    requires Possible(Start(timeout), before) && Enabled(Run(Start(timeout), before), Vector(c, routes))
    requires Possible(Step(Run(Start(timeout), before), Vector(c, routes)), after)
    requires var o := Run(Start(timeout), before).nextId;
      var s' := Run(Step(Run(Start(timeout), before), Vector(c, routes)), after);
      c in s'.clients && o in s'.clients[c] && Waiting(s', o)
    ensures var o := Run(Start(timeout), before).nextId;
      var s' := Run(Step(Run(Start(timeout), before), Vector(c, routes)), after);
      && |s'.hist.vectors[o]| == |routes|
      && (ReqDone(s', c, o, Closed).1 <==>
            !SomeNowhere(routes) && forall x :: x in s'.hist.vectors[o] ==> x in s'.reqs && s'.reqs[x].done)
  {
    var s := Run(Start(timeout), before);
    var s1, o := Step(s, Vector(c, routes)), s.nextId;
    var s' := Run(s1, after);
    AfterVector(timeout, before, c, routes);
    RoutesDecide(s, c, routes);
    SameFragments(s1, after, c, o);
    RunTally(s1, after, o);
    AsksAll(s', c, o);
    SameStuck(s1, after, o);
  }

  lemma SameStuck(s: State, es: seq<Event>, o: MsgId)
    requires Good(s) && Possible(s, es) && o in s.hist.vectors
    requires o in Run(s, es).hist.vectors && Run(s, es).hist.vectors[o] == s.hist.vectors[o]
    ensures AllSent(Run(s, es), o) <==> AllSent(s, o)
  {
    var s' := Run(s, es);
    forall x | x in s.hist.vectors[o] ensures x in s'.hist.stuck <==> x in s.hist.stuck {
      FragmentId(s, o, x);
      RunLater(s, es, x);
      assert Lock(3, 0);
    }
  }

  lemma FragmentId(s: State, o: MsgId, x: MsgId)
    requires Inv(s, Closed) && o in s.hist.vectors && x in s.hist.vectors[o]
    ensures x < s.nextId
  {
    Unfold(s, Closed);
    assert VectorKnown(s, o);
  }
}
