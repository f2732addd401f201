/** Runs from the empty proxy that end in what the theorems say goes wrong. */
module PipelineInputs {
  import opened Basics
  import opened Seqs
  import opened PipelineState
  import opened PipelineInv
  import opened PipelineQueues
  import opened PipelineMoves
  import opened PipelineFlags
  import opened PipelineConns
  import opened PipelineHandlers
  import opened PipelineServer
  import opened PipelineClient
  import opened PipelineRuns
  import opened PipelineEffects
  import opened PipelineErrors
  import opened PipelineMarks
  import opened PipelineCounts
  import opened PipelineStuck
  import opened PipelineBytes

  lemma RunOne(s: State, e: Event, es: seq<Event>)
    requires Good(s) && Enabled(s, e) && Possible(Step(s, e), es)
    ensures Possible(s, [e] + es) && Run(s, [e] + es) == Run(Step(s, e), es)
  {
    assert ([e] + es)[1..] == es;
  }

  // ---------- A half-written error ----------

  /** A client, and a request of its that can be sent nowhere. */
  lemma FailedSingle(timeout: int, c: ConnId, err: int) returns (es: seq<Event>, s: State)
    ensures es == [ClientOpens(c), Single(c, false, Nowhere(err))]
    ensures Possible(Start(timeout), es) && s == Run(Start(timeout), es) && Good(s)
    ensures Failing(s, c) && ErrOf(s, c, 0) == err
  {
    var s0 := Start(timeout);
    var s1 := Step(s0, ClientOpens(c));
    s := Step(s1, Single(c, false, Nowhere(err)));
    es := [ClientOpens(c)] + ([Single(c, false, Nowhere(err))] + []);
    RunOne(s1, Single(c, false, Nowhere(err)), []);
    RunOne(s0, ClientOpens(c), [Single(c, false, Nowhere(err))] + []);
    SingleReceived(s1, c, false, Nowhere(err));
    QueueLive(s, c, Closed);
    SingleRecord(s1, c, err);
  }

  lemma SingleRecord(s: State, c: ConnId, err: int)
    requires Inv(s, Closed) && c in s.clients && s.clients[c] == []
    ensures var s' := RecvSingle(s, c, false, Nowhere(err));
      c in s'.clients && s'.clients[c] == [s.nextId] && s.nextId in s'.reqs && s'.reqs[s.nextId].fragId == 0
  {
    Fresh(s, Closed);
    SingleReceived(s, c, false, Nowhere(err));
    var s1 := AddFailed(s, SingleReq(c, false), err, Closed);
    NotOwner(s, SingleReq(c, false), Closed);
    NotifyKeeps(s1, c, s.nextId, Closed);
  }

  /** After `part` bytes of its error reply have been written, the next write starts the reply over. */
  lemma HalfWrittenRun(timeout: int, c: ConnId, err: int, part: nat)
    returns (es: seq<Event>, s: State, s1: State, s2: State, id: MsgId)
    ensures es == [ClientOpens(c), Single(c, false, Nowhere(err))]
    ensures Possible(Start(timeout), es) && s == Run(Start(timeout), es)
    ensures Enabled(s, Written(c, 1, 0, {}, part)) && s1 == Step(s, Written(c, 1, 0, {}, part))
    ensures Enabled(s1, Written(c, 1, 0, {}, 0)) && s2 == Step(s1, Written(c, 1, 0, {}, 0))
    ensures id in s1.reqs && s1.reqs[id].off == part && s1.reqs[id].peer == Some(Failure(err))
    ensures id in s2.reqs && s2.reqs[id].off == 0
  {
    es, s := FailedSingle(timeout, c, err);
    id := s.clients[c][0];
    HalfWrittenError(s, c, part);
    s1 := Step(s, Written(c, 1, 0, {}, part));
    s2 := Step(s1, Written(c, 1, 0, {}, 0));
  }

  // ---------- A lost error ----------

  lemma RunTwo(s: State, e1: Event, e2: Event, s1: State, s2: State, es: seq<Event>)
    requires Good(s) && Enabled(s, e1) && s1 == Step(s, e1) && Enabled(s1, e2) && s2 == Step(s1, e2)
    requires Possible(s2, es)
    ensures Possible(s, [e1, e2] + es) && Run(s, [e1, e2] + es) == Run(s2, es)
  {
    var rest := [e2] + es;
    RunOne(s1, e2, es);
    RunOne(s, e1, rest);
    assert [e1] + rest == [e1, e2] + es;
  }

  /** A client and a server, a request split into one fragment, and the server connection closes. */
  lemma FailedVector(timeout: int, c: ConnId, sid: ConnId, err: int)
    returns (es: seq<Event>, s: State, o: MsgId, x: MsgId)
    ensures es == [ClientOpens(c), ServerOpens(sid), Vector(c, [To(sid, false, 0)]), ServerCloses(sid, err)]
    ensures Possible(Start(timeout), es) && s == Run(Start(timeout), es) && Good(s)
    ensures Pair(s, c, o, x) && Tally(s, o)
    ensures s.reqs[x].done && s.reqs[x].error && s.reqs[x].err == err
  {
    var e1, e2, e3, e4 := ClientOpens(c), ServerOpens(sid), Vector(c, [To(sid, false, 0)]), ServerCloses(sid, err);
    es := [e1, e2, e3, e4];
    var s1, s2, s3;
    s1, s2, s3, o, x := SplitRequest(timeout, c, sid);
    s := Step(s3, e4);
    RunTwo(s2, e3, e4, s3, s, []);
    RunTwo(Start(timeout), e1, e2, s1, s2, [e3, e4] + []);
    assert [e1, e2] + ([e3, e4] + []) == es;
    VectorFails(s3, c, sid, err, o, x);
    StartTally(timeout, o);
    RunTally(Start(timeout), es, o);
  }

  lemma SplitRequest(timeout: int, c: ConnId, sid: ConnId)
    returns (s1: State, s2: State, s3: State, o: MsgId, x: MsgId)
    ensures Enabled(Start(timeout), ClientOpens(c)) && s1 == Step(Start(timeout), ClientOpens(c))
    ensures Enabled(s1, ServerOpens(sid)) && s2 == Step(s1, ServerOpens(sid))
    ensures Enabled(s2, Vector(c, [To(sid, false, 0)])) && s3 == Step(s2, Vector(c, [To(sid, false, 0)]))
    ensures Good(s3) && sid in s3.servers && Pair(s3, c, o, x) && s3.reqs[x].at == Some(sid)
  {
    s1 := Step(Start(timeout), ClientOpens(c));
    s2 := Step(s1, ServerOpens(sid));
    s3, o := Step(s2, Vector(c, [To(sid, false, 0)])), s2.nextId;
    x := VectorOfOne(s2, c, sid);
  }

  lemma VectorOfOne(s: State, c: ConnId, sid: ConnId) returns (x: MsgId)
    requires Inv(s, Closed) && c in s.clients && s.clients[c] == [] && sid in s.servers
    requires AllReachable(s, [To(sid, false, 0)])
    ensures var s', o := RecvVector(s, c, [To(sid, false, 0)]), s.nextId;
      Pair(s', c, o, x) && s'.reqs[x].at == Some(sid)
  {
    var s', o := RecvVector(s, c, [To(sid, false, 0)]), s.nextId;
    VectorReceived(s, c, [To(sid, false, 0)]);
    x := s'.hist.vectors[o][0];
    assert Placed(s', x, o, [To(sid, false, 0)][0]);
    NotStuck(s', x);
    assert o == s'.clients[c][0] && x == s'.clients[c][1];
    Entry(s', c, o, Closed);
    Entry(s', c, x, Closed);
  }

  lemma VectorFails(s: State, c: ConnId, sid: ConnId, err: int, o: MsgId, x: MsgId)
    requires Good(s) && sid in s.servers && Pair(s, c, o, x) && s.reqs[x].at == Some(sid)
    ensures var s' := CloseServer(s, sid, err);
      Pair(s', c, o, x) && s'.reqs[x].done && s'.reqs[x].error && s'.reqs[x].err == err
  {
    var s' := CloseServer(s, sid, err);
    assert o == s.clients[c][0] && x == s.clients[c][1];
    AtServer(s, c, sid, x);
    CloseResolves(s, sid, err, x);
    CloseServerLater(s, sid, err, x);
    CloseServerLater(s, sid, err, o);
    CloseSame(s, sid, err);
    OwnerPlace(s, c, o, Closed);
    OwnerPlace(s', c, o, Closed);
  }

  lemma AtServer(s: State, c: ConnId, sid: ConnId, x: MsgId)
    requires Inv(s, Closed) && c in s.clients && x in s.clients[c] && x in s.reqs && s.reqs[x].at == Some(sid)
    ensures sid in s.servers && InServer(s.servers[sid], x) && !s.reqs[x].swallow && !s.reqs[x].noreply && x < s.nextId
  {
    Entry(s, c, x, Closed);
  }

  /** Owner o and its only fragment x stand in the queue of client c. */
  ghost predicate Pair(s: State, c: ConnId, o: MsgId, x: MsgId) {
    && c in s.clients && s.clients[c] == [o, x] && o in s.hist.vectors && s.hist.vectors[o] == [x]
    && o in s.reqs && x in s.reqs && s.reqs[x].fragOwner == Some(o) && o != x
    && s.reqs[x].fragId == s.reqs[o].fragId && x !in s.hist.stuck
  }

  /** The vector's turn: req_done says yes, req_error too, and the fragment's error is there to be found. */
  lemma VectorsTurn(s: State, c: ConnId, o: MsgId, x: MsgId, err: int)
    requires Inv(s, Closed) && Pair(s, c, o, x) && Tally(s, o)
    requires s.reqs[x].done && s.reqs[x].error && s.reqs[x].err == err
    ensures FailedHead(s, c) && Picked(s, c, 0)
    ensures var d := ReqDone(s, c, o, Closed).0;
      d.clients == s.clients && Live(d.reqs, s.clients[c]) && IsError(d.reqs, s.clients[c], o) && ErrOf(d, c, 0) == err
  {
    QueueLive(s, c, Closed);
    assert o == s.clients[c][0];
    assert s.reqs[o].done && s.reqs[o].fragId != 0 by { Entry(s, c, o, Closed); }
    if Waiting(s, o) { AsksAll(s, c, o); }
    assert IsDone(s.reqs, s.clients[c], o);
    DoneKeeps(s, c, o, x, Closed);
    DoneLater(s, c, o, o, Closed);
    OwnerPlace(s, c, o, Closed);
    var d := ReqDone(s, c, o, Closed).0;
    QueueLive(d, c, Closed);
    FoundBehind(d, c, o, x, err);
  }

  lemma FoundBehind(s: State, c: ConnId, o: MsgId, x: MsgId, err: int)
    requires c in s.clients && s.clients[c] == [o, x] && Live(s.reqs, s.clients[c])
    requires o in s.reqs && x in s.reqs && s.reqs[o].fragId == s.reqs[x].fragId != 0
    requires s.reqs[x].error && s.reqs[x].err == err
    ensures IsError(s.reqs, s.clients[c], o) && ErrOf(s, c, 0) == err
  {
    var q := s.clients[c];
    assert q[1] == x;
    assert AnyError(s.reqs, q, s.reqs[o].fragId);
    assert q[0] == o && Followers(s, c, 0) == 1;
    var es := Errs(s.reqs, q, 1, 1);
    assert es == [err] && FirstNonzero([]) == 0;
    assert [err][1..] == [];
  }

  /** The first write that gets nothing through finds the fragment's error, the second one finds none. */
  lemma LostErrorRun(timeout: int, c: ConnId, sid: ConnId, err: int)
    returns (es: seq<Event>, s: State, s1: State, s2: State, o: MsgId)
    ensures es == [ClientOpens(c), ServerOpens(sid), Vector(c, [To(sid, false, 0)]), ServerCloses(sid, err)]
    ensures Possible(Start(timeout), es) && s == Run(Start(timeout), es)
    ensures Enabled(s, Written(c, 1, 0, {}, 0)) && s1 == Step(s, Written(c, 1, 0, {}, 0))
    ensures Enabled(s1, Written(c, 1, 0, {}, 0)) && s2 == Step(s1, Written(c, 1, 0, {}, 0))
    ensures o in s1.reqs && s1.reqs[o].peer == Some(Failure(err))
    ensures o in s2.reqs && s2.reqs[o].peer == Some(Failure(0))
  {
    var x;
    es, s, o, x := FailedVector(timeout, c, sid, err);
    VectorsTurn(s, c, o, x, err);
    ErrorLostOnRetry(s, c);
    s1 := Step(s, Written(c, 1, 0, {}, 0));
    s2 := Step(s1, Written(c, 1, 0, {}, 0));
  }

  // ---------- A vector that is never answered ----------

  /** After any run, a request split into one fragment that can be sent nowhere: the fragment is done, and so is
      the owner, but req_done says no, and will never say anything else. */
  lemma StuckRun(timeout: int, before: seq<Event>, c: ConnId, err: int)
    requires Possible(Start(timeout), before) && c in Run(Start(timeout), before).clients
    ensures Enabled(Run(Start(timeout), before), Vector(c, [Nowhere(err)]))
    ensures var s := Run(Start(timeout), before);
      var s1, o := Step(s, Vector(c, [Nowhere(err)])), s.nextId;
      && c in s1.clients && o in s1.clients[c] && Waiting(s1, o)
      && (forall x :: x in s1.hist.vectors[o] ==> x in s1.reqs && s1.reqs[x].done)
      && !ReqDone(s1, c, o, Closed).1
  {
    var s := Run(Start(timeout), before);
    var routes := [Nowhere(err)];
    assert AllReachable(s, routes);
    var s1, o := Step(s, Vector(c, routes)), s.nextId;
    assert routes[0].Nowhere? && SomeNowhere(routes);
    AfterVector(timeout, before, c, routes);
    NotLatched(s1, c, o);
    AsksAll(s1, c, o);
    VectorReceived(s, c, routes);
    forall x | x in s1.hist.vectors[o] ensures x in s1.reqs && s1.reqs[x].done {
      var i :| 0 <= i < |s1.hist.vectors[o]| && s1.hist.vectors[o][i] == x;
      assert Placed(s1, s1.hist.vectors[o][i], o, routes[i]);
    }
  }

  lemma NotLatched(s: State, c: ConnId, o: MsgId)
    requires Inv(s, Closed) && c in s.clients && o in s.clients[c] && o in s.hist.vectors && Tally(s, o)
    requires !AllSent(s, o)
    ensures Waiting(s, o)
  {
    Entry(s, c, o, Closed);
  }
}
