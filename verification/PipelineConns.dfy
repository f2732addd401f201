/** Opening and closing connections keeps the invariant. */
module PipelineConns {
  import opened Basics
  import opened Seqs
  import opened PipelineState
  import opened PipelineInv
  import opened PipelineQueues
  import opened PipelineMoves
  import opened PipelineFlags

  function OpenClient(s: State, c: ConnId): State {
    s.(clients := s.clients[c := []],
       hist := s.hist.(arrived := s.hist.arrived[c := []], sent := s.hist.sent[c := []]))
  }

  lemma InvOpenClient(s: State, c: ConnId)
    requires Inv(s, Closed) && c !in s.hist.arrived
    ensures Inv(OpenClient(s, c), Closed)
  {
    Unfold(s, Closed);
    assert c !in s.clients;
    OpenClientLinks(s, c);
    OpenQueues(s, c);
    SameHistoryRest(s, OpenClient(s, c));
    OpenLogged(s, c);
  }

  lemma OpenClientLinks(s: State, c: ConnId)
    requires Links(s) && c !in s.clients
    ensures Links(OpenClient(s, c))
  {
    var s' := OpenClient(s, c);
    forall x | x in s'.reqs ensures ReqOk(s', x, s'.reqs[x]) { assert ReqOk(s, x, s.reqs[x]); }
  }

  lemma OpenQueues(s: State, c: ConnId)
    requires Queues(s, Closed) && c !in s.clients
    ensures Queues(OpenClient(s, c), Closed)
  {
    var s' := OpenClient(s, c);
    forall d | d in s'.clients ensures QueueOk(s'.reqs, s'.hist, s'.clients[d], Closed) {
      if d != c { QueueFlags(s.reqs, s.hist, s.clients[d], Closed, s'.reqs, s'.hist, Closed); }
    }
  }

  lemma OpenLogged(s: State, c: ConnId)
    requires Logged(s) && c !in s.hist.arrived
    ensures Logged(OpenClient(s, c))
  {
    var s' := OpenClient(s, c);
    forall d | d in s'.hist.arrived ensures LoggedAt(s', d) {
      if d != c { assert LoggedAt(s, d); }
    }
    forall d, e | d in s'.hist.arrived && e in s'.hist.arrived && d != e
      ensures Apart(s'.hist.arrived[d], s'.hist.arrived[e])
    {
      if d != c && e != c { assert Apart(s.hist.arrived[d], s.hist.arrived[e]); }
    }
  }

  /** What only looks at requests and timers does not mind connections coming and going. */
  lemma SameHistoryRest(s: State, s': State)
    requires Paired(s) && Timed(s) && Ids(s)
    requires s'.reqs == s.reqs && s'.timers == s.timers && s'.timeout == s.timeout
    requires s'.nextId == s.nextId && s'.nextFrag == s.nextFrag
    requires s'.hist == s.hist.(arrived := s'.hist.arrived, sent := s'.hist.sent, wire := s'.hist.wire)
    requires forall x :: x in s.reqs && Waits(s', s.reqs[x]) ==> Waits(s, s.reqs[x])
    ensures Paired(s') && Timed(s') && Ids(s')
  {
    forall x | x in s'.reqs ensures PairedAt(s'.hist, x, s'.reqs[x]) { assert PairedAt(s.hist, x, s.reqs[x]); }
    forall x | x in s'.hist.replies ensures ReplyFits(s'.hist, x, s'.hist.replies[x]) {
      ReplyStillFits(s.hist, s'.hist, x, s.hist.replies[x]);
    }
    forall x | Known(s'.hist, x) ensures 0 <= x < s'.nextId { assert Known(s.hist, x); }
    forall o | o in s'.hist.vectors ensures VectorKnown(s', o) { assert VectorKnown(s, o); }
  }

  function OpenServer(s: State, sid: ConnId): State {
    s.(servers := s.servers[sid := ServerConn([], [])], hist := s.hist.(wire := s.hist.wire[sid := []]))
  }

  /** The connection is gone: what the backend still owes will never arrive. */
  function Unwire(s: State, sid: ConnId): State {
    s.(hist := s.hist.(wire := s.hist.wire - {sid}))
  }

  function RemoveServer(s: State, sid: ConnId): State {
    s.(servers := s.servers - {sid})
  }

  /** Changes of server connections that leave every request where it is. */
  lemma InvServers(s: State, s': State)
    requires Inv(s, Closed) && Links(s')
    requires s' == s.(servers := s'.servers, hist := s.hist.(wire := s'.hist.wire))
    requires forall x :: x in s.reqs && Waits(s', s.reqs[x]) ==> Waits(s, s.reqs[x])
    ensures Inv(s', Closed)
  {
    Unfold(s, Closed);
    forall d | d in s'.clients ensures QueueOk(s'.reqs, s'.hist, s'.clients[d], Closed) {
      QueueFlags(s.reqs, s.hist, s.clients[d], Closed, s'.reqs, s'.hist, Closed);
    }
    SameHistoryRest(s, s');
    forall d | d in s'.hist.arrived ensures LoggedAt(s', d) { assert LoggedAt(s, d); }
  }

  lemma InvOpenServer(s: State, sid: ConnId)
    requires Inv(s, Closed) && sid !in s.servers
    ensures Inv(OpenServer(s, sid), Closed)
  {
    Unfold(s, Closed);
    OpenServerLinks(s, sid);
    InvServers(s, OpenServer(s, sid));
  }

  lemma OpenServerLinks(s: State, sid: ConnId)
    requires Links(s) && sid !in s.servers
    ensures var s' := OpenServer(s, sid);
      Links(s') && forall x :: x in s.reqs && Waits(s', s.reqs[x]) ==> Waits(s, s.reqs[x])
  {
    var s' := OpenServer(s, sid);
    forall x | x in s'.reqs ensures ReqOk(s', x, s'.reqs[x]) && (Waits(s', s.reqs[x]) ==> Waits(s, s.reqs[x])) {
      assert ReqOk(s, x, s.reqs[x]);
    }
  }

  lemma InvUnwire(s: State, sid: ConnId)
    requires Inv(s, Closed)
    ensures Inv(Unwire(s, sid), Closed)
  {
    Unfold(s, Closed);
    UnwireLinks(s, sid, s.hist);
    InvServers(s, Unwire(s, sid));
  }

  lemma InvRemoveServer(s: State, sid: ConnId)
    requires Inv(s, Closed) && sid in s.servers && s.servers[sid] == ServerConn([], [])
    ensures Inv(RemoveServer(s, sid), Closed)
  {
    Unfold(s, Closed);
    var s' := RemoveServer(s, sid);
    forall x | x in s'.reqs ensures ReqOk(s', x, s'.reqs[x]) { assert ReqOk(s, x, s.reqs[x]); }
    InvServers(s, s');
  }

  /** The head of the in queue has been written to the server. */
  function SendHead(s: State, sid: ConnId): State
    requires sid in s.servers && s.servers[sid].inq != [] && sid in s.hist.wire
  {
    var v := s.servers[sid];
    s.(servers := s.servers[sid := ServerConn(v.inq[1..], v.outq + [v.inq[0]])],
       hist := s.hist.(wire := s.hist.wire[sid := s.hist.wire[sid] + [v.inq[0]]]))
  }

  lemma SendOk(reqs: map<MsgId, Req>, sid: ConnId, v: ServerConn)
    requires ServerOk(reqs, sid, v) && v.inq != [] && !reqs[v.inq[0]].noreply
    ensures ServerOk(reqs, sid, ServerConn(v.inq[1..], v.outq + [v.inq[0]]))
    ensures forall x :: InServer(ServerConn(v.inq[1..], v.outq + [v.inq[0]]), x) <==> InServer(v, x)
  {
    RemoveAtMembers(v.inq, 0);
    assert v.inq[1..] == RemoveAt(v.inq, 0);
    var id := v.inq[0];
    assert v.inq == [id] + v.inq[1..];
    assert id in v.inq && id !in v.outq;
    forall i | 0 <= i < |v.outq| ensures v.outq[i] != id { assert v.outq[i] in v.outq; }
  }

  lemma InvSendHead(s: State, sid: ConnId)
    requires Inv(s, Closed) && sid in s.servers && s.servers[sid].inq != [] && sid in s.hist.wire
    requires s.servers[sid].inq[0] in s.reqs && !s.reqs[s.servers[sid].inq[0]].noreply
    ensures Inv(SendHead(s, sid), Closed)
  {
    Unfold(s, Closed);
    var s' := SendHead(s, sid);
    SendOk(s.reqs, sid, s.servers[sid]);
    forall x | x in s'.reqs ensures ReqOk(s', x, s'.reqs[x]) { assert ReqOk(s, x, s.reqs[x]); }
    InvServers(s, s');
  }

  // ---------- A client closes ----------

  function SetSwallow(s: State, id: MsgId): State
    requires id in s.reqs
  {
    s.(reqs := s.reqs[id := s.reqs[id].(swallow := true)])
  }

  /** Done requests are recycled; the answers to the others will be swallowed. */
  function Drain(s: State, q: seq<MsgId>): State
    requires NoDup(q) && forall i :: 0 <= i < |q| ==> q[i] in s.reqs
    decreases |q|
  {
    if q == [] then s
    else Drain(if s.reqs[q[0]].done then Put(s, q[0]) else SetSwallow(s, q[0]), q[1..])
  }

  function CloseClient(s: State, c: ConnId): State
    requires c in s.clients && NoDup(s.clients[c]) && Live(s.reqs, s.clients[c])
  {
    var s1 := Drain(s, s.clients[c]);
    s1.(clients := s1.clients - {c})
  }

  ghost predicate Drops(s: State, q: seq<MsgId>, x: MsgId) {
    x in q && x in s.reqs && s.reqs[x].done
  }

  ghost predicate Drained(s: State, q: seq<MsgId>, s': State) {
    && s' == s.(reqs := s'.reqs, timers := s'.timers, hist := s.hist.(freed := s'.hist.freed))
    && (forall x :: x in s'.reqs <==> x in s.reqs && !Drops(s, q, x))
    && (forall x :: x in s'.reqs ==>
          s'.reqs[x] == if x in q then s.reqs[x].(swallow := true) else s.reqs[x])
    && Sorted(s'.timers)
    && (forall t :: t in s'.timers <==> t in s.timers && !Drops(s, q, t.id))
    && NoDup(s'.hist.freed)
    && (forall x :: x in s'.hist.freed <==> x in s.hist.freed || Drops(s, q, x))
  }

  lemma {:induction false} DrainOk(s: State, q: seq<MsgId>)
    requires NoDup(q) && forall i :: 0 <= i < |q| ==> q[i] in s.reqs
    requires Sorted(s.timers) && NoDup(s.hist.freed) && forall x :: x in s.hist.freed ==> x !in s.reqs
    ensures Drained(s, q, Drain(s, q))
    decreases |q|
  {
    if q == [] {
    } else {
      var s1 := if s.reqs[q[0]].done then Put(s, q[0]) else SetSwallow(s, q[0]);
      DrainOne(s, q[0]);
      DrainOk(s1, q[1..]);
      DrainBoth(s, q, s1, Drain(s1, q[1..]));
    }
  }

  lemma DrainOne(s: State, id: MsgId)
    requires id in s.reqs && Sorted(s.timers) && NoDup(s.hist.freed) && id !in s.hist.freed
    ensures Drained(s, [id], if s.reqs[id].done then Put(s, id) else SetSwallow(s, id))
  {
    var s' := if s.reqs[id].done then Put(s, id) else SetSwallow(s, id);
    assert forall x :: Drops(s, [id], x) <==> x == id && s.reqs[id].done;
    if s.reqs[id].done {
      CancelOk(s.timers, id);
      forall x | x in s'.reqs ensures s'.reqs[x] == if x in [id] then s.reqs[x].(swallow := true) else s.reqs[x] {}
      assert s'.hist.freed == s.hist.freed + [id];
    } else {
      forall x | x in s'.reqs ensures s'.reqs[x] == if x in [id] then s.reqs[x].(swallow := true) else s.reqs[x] {}
    }
  }

  lemma DrainBoth(s: State, q: seq<MsgId>, s1: State, s': State)
    requires q != [] && NoDup(q) && q[0] in s.reqs
    requires Drained(s, [q[0]], s1) && Drained(s1, q[1..], s')
    ensures Drained(s, q, s')
  {
    var id := q[0];
    assert q == [id] + q[1..];
    assert id !in q[1..];
    forall x ensures Drops(s, q, x) <==> Drops(s, [id], x) || Drops(s1, q[1..], x) {
      assert x in q <==> x == id || x in q[1..];
    }
  }

  lemma InvCloseClient(s: State, c: ConnId)
    requires Inv(s, Closed) && c in s.clients && NoDup(s.clients[c]) && Live(s.reqs, s.clients[c])
    ensures Inv(CloseClient(s, c), Closed)
  {
    Unfold(s, Closed);
    var q := s.clients[c];
    var s1 := Drain(s, q);
    var s' := CloseClient(s, c);
    DrainOk(s, q);
    CloseLinks(s, c, s1);
    CloseQueues(s, c, s1);
    ClosePaired(s, q, s1, s');
    CloseTimed(s, q, s1, s');
    CloseIds(s, q, s1, s');
    CloseLogged(s, c, s1, s');
  }

  lemma CloseLinks(s: State, c: ConnId, s1: State)
    requires Links(s) && c in s.clients && Drained(s, s.clients[c], s1)
    ensures Links(s1.(clients := s.clients - {c}))
  {
    var s' := s1.(clients := s.clients - {c});
    var q := s.clients[c];
    assert ClientOk(s.reqs, c, q);
    forall d | d in s'.clients ensures ClientOk(s'.reqs, d, s'.clients[d]) {
      CloseOther(s, c, s1, d);
    }
    forall t | t in s'.servers ensures ServerOk(s'.reqs, t, s'.servers[t]) {
      var v := s.servers[t];
      assert ServerOk(s.reqs, t, v);
      forall i | 0 <= i < |v.inq| ensures v.inq[i] in s'.reqs && s'.reqs[v.inq[i]].at == Some(t) {
        StillServed(s, q, s1, v.inq[i]);
      }
      forall i | 0 <= i < |v.outq|
        ensures v.outq[i] in s'.reqs && s'.reqs[v.outq[i]].at == Some(t) && !s'.reqs[v.outq[i]].noreply
      {
        StillServed(s, q, s1, v.outq[i]);
      }
    }
    forall x | x in s'.reqs ensures ReqOk(s', x, s'.reqs[x]) {
      assert ReqOk(s, x, s.reqs[x]);
      assert s.reqs[x].client == c && x !in q ==> !s.reqs[x].done;
    }
  }

  lemma StillServed(s: State, q: seq<MsgId>, s1: State, x: MsgId)
    requires Links(s) && Drained(s, q, s1) && x in s.reqs && s.reqs[x].at.Some?
    ensures x in s1.reqs && s1.reqs[x].at == s.reqs[x].at && s1.reqs[x].noreply == s.reqs[x].noreply
  {
    assert ReqOk(s, x, s.reqs[x]);
  }

  lemma CloseOther(s: State, c: ConnId, s1: State, d: ConnId)
    requires Links(s) && c in s.clients && Drained(s, s.clients[c], s1) && d in s.clients && d != c
    ensures ClientOk(s1.reqs, d, s.clients[d])
    ensures forall i :: 0 <= i < |s.clients[d]| ==>
      var x := s.clients[d][i]; x in s.reqs && x in s1.reqs && s1.reqs[x] == s.reqs[x]
  {
    assert ClientOk(s.reqs, c, s.clients[c]) && ClientOk(s.reqs, d, s.clients[d]);
    forall i | 0 <= i < |s.clients[d]|
      ensures var x := s.clients[d][i]; x in s.reqs && x in s1.reqs && s1.reqs[x] == s.reqs[x]
    {
      var x := s.clients[d][i];
      assert x !in s.clients[c];
    }
  }

  lemma CloseQueues(s: State, c: ConnId, s1: State)
    requires Links(s) && Queues(s, Closed) && c in s.clients && Drained(s, s.clients[c], s1)
    ensures Queues(s1.(clients := s.clients - {c}), Closed)
  {
    var s' := s1.(clients := s.clients - {c});
    forall d | d in s'.clients ensures QueueOk(s'.reqs, s'.hist, s'.clients[d], Closed) {
      CloseOther(s, c, s1, d);
      QueueFlags(s.reqs, s.hist, s.clients[d], Closed, s'.reqs, s'.hist, Closed);
    }
  }

  lemma ClosePaired(s: State, q: seq<MsgId>, s1: State, s': State)
    requires Paired(s) && Drained(s, q, s1) && s'.reqs == s1.reqs && s'.hist == s1.hist
    ensures Paired(s')
  {
    forall x | x in s'.reqs ensures PairedAt(s'.hist, x, s'.reqs[x]) { assert PairedAt(s.hist, x, s.reqs[x]); }
    forall x | x in s'.hist.replies ensures ReplyFits(s'.hist, x, s'.hist.replies[x]) {
      ReplyStillFits(s.hist, s'.hist, x, s.hist.replies[x]);
    }
  }

  lemma CloseTimed(s: State, q: seq<MsgId>, s1: State, s': State)
    requires Timed(s) && Drained(s, q, s1) && s'.reqs == s1.reqs && s'.timers == s1.timers && s'.timeout == s.timeout
    requires s'.hist.wire == s.hist.wire
    ensures Timed(s')
  {
    forall t | t in s'.timers ensures TimerOk(s'.reqs, t) { assert TimerOk(s.reqs, t); }
    if s.timeout > 0 {
      forall x | x in s'.reqs && Waits(s', s'.reqs[x]) ensures Armed(s'.timers, x) {
        assert Armed(s.timers, x);
        var t :| t in s.timers && t.id == x;
        assert t in s'.timers;
      }
    }
  }

  lemma CloseIds(s: State, q: seq<MsgId>, s1: State, s': State)
    requires Links(s) && Ids(s) && Drained(s, q, s1) && s'.reqs == s1.reqs && s'.hist == s1.hist
    requires s'.nextId == s.nextId && s'.nextFrag == s.nextFrag
    ensures Ids(s')
  {
    forall x | Known(s'.hist, x) ensures 0 <= x < s'.nextId {
      if x in s.reqs { assert ReqOk(s, x, s.reqs[x]); } else { assert Known(s.hist, x); }
    }
    forall o | o in s'.hist.vectors ensures VectorKnown(s', o) { assert VectorKnown(s, o); }
  }

  lemma CloseLogged(s: State, c: ConnId, s1: State, s': State)
    requires Logged(s) && c in s.clients && Drained(s, s.clients[c], s1)
    requires s' == s1.(clients := s.clients - {c})
    ensures Logged(s')
  {
    forall d | d in s'.hist.arrived ensures LoggedAt(s', d) { assert LoggedAt(s, d); }
  }
}
