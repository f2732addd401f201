/** The handlers of server connections: sending, receiving responses, closing, and timing out. */
module PipelineServer {
  import opened Basics
  import opened Seqs
  import opened PipelineState
  import opened PipelineInv
  import opened PipelineQueues
  import opened PipelineMoves
  import opened PipelineFlags
  import opened PipelineConns
  import opened PipelineHandlers

  lemma ServerEntry(s: State, sid: ConnId, id: MsgId, open: Open)
    requires Inv(s, open) && sid in s.servers && InServer(s.servers[sid], id)
    ensures id in s.reqs && s.reqs[id].at == Some(sid) && !s.reqs[id].done
    ensures ServerOk(s.reqs, sid, s.servers[sid]) && id !in s.hist.answers
    ensures sid in s.hist.wire ==> s.hist.wire[sid] == s.servers[sid].outq
  {
    Unfold(s, open);
    assert ServerOk(s.reqs, sid, s.servers[sid]);
    if id in s.servers[sid].inq {
      var i :| 0 <= i < |s.servers[sid].inq| && s.servers[sid].inq[i] == id;
    } else {
      var i :| 0 <= i < |s.servers[sid].outq| && s.servers[sid].outq[i] == id;
    }
    assert ReqOk(s, id, s.reqs[id]) && PairedAt(s.hist, id, s.reqs[id]);
  }

  /** The owner of a fragment still waiting for its answer has not been recycled. */
  lemma OwnerAlive(s: State, id: MsgId)
    requires Inv(s, Closed) && id in s.reqs && s.reqs[id].at.Some? && !s.reqs[id].swallow && !s.reqs[id].noreply
    ensures s.reqs[id].client in s.clients && !s.reqs[id].error
    ensures s.reqs[id].fragOwner.Some? <==> s.reqs[id].fragId != 0
    ensures s.reqs[id].fragOwner.Some? ==> s.reqs[id].fragOwner.value in s.reqs && s.reqs[id].fragOwner.value != id
  {
    Unfold(s, Closed);
    assert ReqOk(s, id, s.reqs[id]);
    Entry(s, s.reqs[id].client, id, Closed);
  }

  function SendNoreply(s: State, sid: ConnId): (s': State)
    requires Inv(s, Closed) && sid in s.servers && s.servers[sid].inq != []
    requires s.servers[sid].inq[0] in s.reqs && s.reqs[s.servers[sid].inq[0]].noreply
    ensures Inv(s', Closed) && s'.servers.Keys == s.servers.Keys && s'.hist.wire.Keys == s.hist.wire.Keys
    ensures s'.timeout == s.timeout
  {
    var v := s.servers[sid];
    ServerEntry(s, sid, v.inq[0], Closed);
    TakeIn(v);
    InvDiscard(s, sid, v.(inq := v.inq[1..]), v.inq[0], s.hist);
    Discard(s, sid, v.(inq := v.inq[1..]), v.inq[0])
  }

  /** The head of the in queue has been written: it waits for its answer, or is recycled. */
  function ServerSend(s: State, sid: ConnId): (s': State)
    requires Inv(s, Closed) && sid in s.servers && sid in s.hist.wire
    ensures Inv(s', Closed) && s'.servers.Keys == s.servers.Keys && s'.hist.wire.Keys == s.hist.wire.Keys
    ensures s'.timeout == s.timeout
  {
    if s.servers[sid].inq == [] then s
    else
      ServerEntry(s, sid, s.servers[sid].inq[0], Closed);
      if s.reqs[s.servers[sid].inq[0]].noreply then SendNoreply(s, sid)
      else
        InvSendHead(s, sid);
        SendHead(s, sid)
  }

  /** The record of a request that has its answer; a fragment's answer may be of the wrong kind. */
  function WithAnswer(r: Req, x: int, bad: bool): Req {
    if bad && r.fragId != 0 then r.(peer := Some(Backend(x)), error := true, err := EINVAL)
    else r.(peer := Some(Backend(x)))
  }

  function Failed(r: Req, err: int): Req {
    r.(error := true, err := err)
  }

  ghost predicate Settles(s: State, sid: ConnId, v: ServerConn, id: MsgId, r: Req, h: History) {
    && QuietHistory(s, h) && CanTake(s.(hist := h), sid, v, id)
    && (forall t :: t != sid && t in h.wire ==> t in s.hist.wire && h.wire[t] == s.hist.wire[t])
    && (forall x :: x in h.answers && x != id ==> x in s.hist.answers)
    && id in s.reqs && s.reqs[id].at == Some(sid) && !s.reqs[id].swallow && !s.reqs[id].noreply
    && r == s.reqs[id].(error := r.error, err := r.err, peer := r.peer)
    && PairedAt(h, id, r.(done := true)) && !(r.peer.Some? && r.peer.value.Coalesced?)
  }

  function Finish(s: State, sid: ConnId, v: ServerConn, id: MsgId, r: Req, h: History): (s': State)
    requires Inv(s, Closed) && Settles(s, sid, v, id, r, h)
    ensures Inv(s', Closed) && s' == Complete(s.(hist := h), sid, v, id, r)
    ensures r.client in s.clients && (r.fragOwner.Some? ==> r.fragOwner.value in s.reqs)
  {
    OwnerAlive(s, id);
    InvComplete(s, sid, v, id, r, h);
    Complete(s.(hist := h), sid, v, id, r)
  }

  function CancelDone(s: State, id: MsgId): (s': State)
    requires Inv(s, Closed) && id in s.reqs && !Waits(s, s.reqs[id])
    ensures Inv(s', Closed) && s' == s.(timers := Cancel(s.timers, id))
  {
    InvCancel(s, id);
    s.(timers := Cancel(s.timers, id))
  }

  function BumpOwner(s: State, o: Option<MsgId>): (s': State)
    requires Inv(s, Closed) && (o.Some? ==> o.value in s.reqs)
    ensures Inv(s', Closed) && s' == s.(reqs := s'.reqs) && s'.reqs.Keys == s.reqs.Keys
  {
    if o.None? then s
    else
      InvBump(s, o.value);
      Bump(s, o.value)
  }

  /** A request leaves its server connection with what became of it; `out` says it was in the out
      queue, whose requests lose their timeout. Its vector and its client are told. */
  function Settle(s: State, sid: ConnId, v: ServerConn, id: MsgId, r: Req, h: History, out: bool): (s': State)
    requires Inv(s, Closed) && Settles(s, sid, v, id, r, h)
    ensures Inv(s', Closed)
    ensures s'.servers == s.servers[sid := v] && s'.clients == s.clients && s'.hist.wire == h.wire
    ensures s'.timeout == s.timeout && s'.timers == if out then Cancel(s.timers, id) else s.timers
  {
    var s1 := Finish(s, sid, v, id, r, h);
    var s2 := if out then CancelDone(s1, id) else s1;
    Notify(BumpOwner(s2, r.fragOwner), r.client, Closed)
  }

  /** The backend answers the oldest request it still owes an answer. */
  function AnswerHistory(h: History, sid: ConnId, x: int): History
    requires sid in h.wire && h.wire[sid] != []
  {
    h.(wire := h.wire[sid := h.wire[sid][1..]], answers := h.answers[h.wire[sid][0] := x])
  }

  lemma AnswerSettles(s: State, sid: ConnId, x: int, bad: bool)
    requires Inv(s, Closed) && sid in s.servers && sid in s.hist.wire && s.hist.wire[sid] != []
    ensures s.servers[sid].outq == s.hist.wire[sid]
    ensures var v, id, h := s.servers[sid], s.hist.wire[sid][0], AnswerHistory(s.hist, sid, x);
      var v' := v.(outq := v.outq[1..]);
      && id in s.reqs && s.reqs[id].at == Some(sid) && !s.reqs[id].noreply
      && QuietHistory(s, h) && CanTake(s.(hist := h), sid, v', id)
      && (!s.reqs[id].swallow ==> Settles(s, sid, v', id, WithAnswer(s.reqs[id], x, bad), h))
  {
    Unfold(s, Closed);
    var v := s.servers[sid];
    ServerEntry(s, sid, v.outq[0], Closed);
    TakeOut(v);
    assert PairedAt(s.hist, v.outq[0], s.reqs[v.outq[0]]);
    if !s.reqs[v.outq[0]].swallow { OwnerAlive(s, v.outq[0]); }
  }

  /** The oldest unanswered request of the connection is answered with x. */
  function Respond(s: State, sid: ConnId, x: int, bad: bool): (s': State)
    requires Inv(s, Closed) && sid in s.servers && sid in s.hist.wire && s.hist.wire[sid] != []
    ensures Inv(s', Closed) && s'.servers.Keys == s.servers.Keys && s'.hist.wire.Keys == s.hist.wire.Keys
    ensures s'.timeout == s.timeout
  {
    AnswerSettles(s, sid, x, bad);
    var v := s.servers[sid];
    var id := v.outq[0];
    var v' := v.(outq := v.outq[1..]);
    var h := AnswerHistory(s.hist, sid, x);
    if s.reqs[id].swallow then
      InvDiscard(s, sid, v', id, h);
      Discard(s.(hist := h), sid, v', id)
    else
      Settle(s, sid, v', id, WithAnswer(s.reqs[id], x, bad), h, true)
  }

  // ---------- A server connection closes ----------

  lemma FailSettles(s: State, sid: ConnId, v: ServerConn, id: MsgId, err: int)
    requires Inv(s, Closed) && sid in s.servers && sid !in s.hist.wire && Takes(s.servers[sid], id, v)
    requires id in s.reqs && s.reqs[id].at == Some(sid)
    ensures QuietHistory(s, s.hist) && CanTake(s, sid, v, id) && |Cancel(s.timers, id)| <= |s.timers|
    ensures !s.reqs[id].swallow && !s.reqs[id].noreply ==> Settles(s, sid, v, id, Failed(s.reqs[id], err), s.hist)
  {
    Unfold(s, Closed);
    CancelOk(s.timers, id);
    assert ReqOk(s, id, s.reqs[id]) && PairedAt(s.hist, id, s.reqs[id]);
    if !s.reqs[id].swallow && !s.reqs[id].noreply { OwnerAlive(s, id); }
  }

  /** One request of a closing connection is recycled if nobody waits for it, or fails. */
  function FailOne(s: State, sid: ConnId, v: ServerConn, id: MsgId, err: int, out: bool): (s': State)
    requires Inv(s, Closed) && sid in s.servers && sid !in s.hist.wire && Takes(s.servers[sid], id, v)
    requires id in s.reqs && s.reqs[id].at == Some(sid)
    ensures Inv(s', Closed) && s'.servers == s.servers[sid := v] && s'.hist.wire == s.hist.wire
    ensures s'.clients == s.clients && s'.timeout == s.timeout && |s'.timers| <= |s.timers|
  {
    FailSettles(s, sid, v, id, err);
    if s.reqs[id].swallow || s.reqs[id].noreply then
      InvDiscard(s, sid, v, id, s.hist);
      Discard(s, sid, v, id)
    else
      Settle(s, sid, v, id, Failed(s.reqs[id], err), s.hist, out)
  }

  function FailIn(s: State, sid: ConnId, err: int): (s': State)
    requires Inv(s, Closed) && sid in s.servers && sid !in s.hist.wire && s.servers[sid].inq != []
    ensures Inv(s', Closed) && s'.hist.wire == s.hist.wire
    ensures s'.servers == s.servers[sid := s.servers[sid].(inq := s.servers[sid].inq[1..])]
    ensures s'.clients == s.clients && s'.timeout == s.timeout && |s'.timers| <= |s.timers|
  {
    var v := s.servers[sid];
    ServerEntry(s, sid, v.inq[0], Closed);
    TakeIn(v);
    FailOne(s, sid, v.(inq := v.inq[1..]), v.inq[0], err, false)
  }

  function FailOut(s: State, sid: ConnId, err: int): (s': State)
    requires Inv(s, Closed) && sid in s.servers && sid !in s.hist.wire && s.servers[sid].outq != []
    ensures Inv(s', Closed) && s'.hist.wire == s.hist.wire
    ensures s'.servers == s.servers[sid := s.servers[sid].(outq := s.servers[sid].outq[1..])]
    ensures s'.clients == s.clients && s'.timeout == s.timeout && |s'.timers| <= |s.timers|
  {
    var v := s.servers[sid];
    ServerEntry(s, sid, v.outq[0], Closed);
    TakeOut(v);
    FailOne(s, sid, v.(outq := v.outq[1..]), v.outq[0], err, true)
  }

  /** The two loops of server_close. */
  function FailAll(s: State, sid: ConnId, err: int): (s': State)
    requires Inv(s, Closed) && sid in s.servers && sid !in s.hist.wire
    ensures Inv(s', Closed) && s'.servers.Keys == s.servers.Keys && s'.servers[sid] == ServerConn([], [])
    ensures s'.hist.wire == s.hist.wire
    ensures s'.clients == s.clients && s'.timeout == s.timeout && |s'.timers| <= |s.timers|
    decreases |s.servers[sid].inq| + |s.servers[sid].outq|
  {
    if s.servers[sid].inq != [] then FailAll(FailIn(s, sid, err), sid, err)
    else if s.servers[sid].outq != [] then FailAll(FailOut(s, sid, err), sid, err)
    else s
  }

  /** A closing connection, whose backend's answers will never arrive, is emptied and removed. */
  function CloseUnwired(s: State, sid: ConnId, err: int): (s': State)
    requires Inv(s, Closed) && sid in s.servers && sid !in s.hist.wire
    ensures Inv(s', Closed) && s'.servers.Keys == s.servers.Keys - {sid} && s'.hist.wire == s.hist.wire
    ensures s'.clients == s.clients && s'.timeout == s.timeout && |s'.timers| <= |s.timers|
  {
    var s1 := FailAll(s, sid, err);
    InvRemoveServer(s1, sid);
    RemoveServer(s1, sid)
  }

  /** server_close: every request of the connection fails or is recycled. */
  function CloseServer(s: State, sid: ConnId, err: int): (s': State)
    requires Inv(s, Closed) && sid in s.servers
    ensures Inv(s', Closed) && s'.servers.Keys == s.servers.Keys - {sid} && s'.hist.wire == s.hist.wire - {sid}
    ensures s'.clients == s.clients && s'.timeout == s.timeout && |s'.timers| <= |s.timers|
  {
    InvUnwire(s, sid);
    CloseUnwired(Unwire(s, sid), sid, err)
  }

  // ---------- Timeouts ----------

  const ETIMEDOUT := 110

  /** The first entry of the timeout tree is a live request; if it is not done, the entry names the
      open connection that holds it. */
  lemma FirstTimer(s: State)
    requires Inv(s, Closed) && s.timers != []
    ensures s.timers[0].id in s.reqs
    ensures !s.reqs[s.timers[0].id].done ==>
      s.timers[0].conn in s.servers && s.reqs[s.timers[0].id].at == Some(s.timers[0].conn)
    ensures s.reqs[s.timers[0].id].error ==> s.reqs[s.timers[0].id].done
  {
    Unfold(s, Closed);
    var t := s.timers[0];
    assert t in s.timers;
    assert TimerOk(s.reqs, t);
    assert ReqOk(s, t.id, s.reqs[t.id]);
  }

  /** The request at the head of the tree has expired: its entry goes and its connection closes. */
  function Expire(s: State): (s': State)
    requires Inv(s, Closed) && s.timers != []
    requires s.timers[0].id in s.reqs && !s.reqs[s.timers[0].id].done
    ensures Inv(s', Closed) && s'.clients == s.clients && s'.timeout == s.timeout && |s'.timers| < |s.timers|
    ensures s'.servers.Keys <= s.servers.Keys
    ensures s.servers.Keys <= s.hist.wire.Keys ==> s'.servers.Keys <= s'.hist.wire.Keys
  {
    FirstTimer(s);
    var t := s.timers[0];
    InvUnwire(s, t.conn);
    CloseUnwired(CancelDone(Unwire(s, t.conn), t.id), t.conn, ETIMEDOUT)
  }

  function DropTimer(s: State): (s': State)
    requires Inv(s, Closed) && s.timers != []
    requires s.timers[0].id in s.reqs && s.reqs[s.timers[0].id].done
    ensures Inv(s', Closed) && s' == s.(timers := s.timers[1..])
  {
    CancelDone(s, s.timers[0].id)
  }

  /** core_timeout; `nows` are the readings of the clock, of which it takes as many as it needs.
      Entries of requests that are done are dropped; while the first other one has expired, its
      connection is closed. */
  function Timeouts(s: State, nows: seq<int>): (res: (State, nat))
    requires Inv(s, Closed) && |s.timers| < |nows|
    ensures Inv(res.0, Closed) && res.0.clients == s.clients && res.0.timeout == s.timeout && res.1 <= |nows|
    ensures res.0.servers.Keys <= s.servers.Keys
    ensures s.servers.Keys <= s.hist.wire.Keys ==> res.0.servers.Keys <= res.0.hist.wire.Keys
    ensures res.0.timers != [] ==> 0 < res.1 && nows[res.1 - 1] < res.0.timers[0].deadline
    decreases |s.timers|
  {
    if s.timers == [] then (s, 0)
    else
      FirstTimer(s);
      if s.reqs[s.timers[0].id].done then Timeouts(DropTimer(s), nows)
      else if nows[0] < s.timers[0].deadline then (s, 1)
      else
        var r := Timeouts(Expire(s), nows[1..]);
        (r.0, r.1 + 1)
  }

  /** When core_timeout returns, no timeout is left whose deadline is at or before a reading it took. */
  lemma NothingOverdue(s: State, nows: seq<int>, t: Timer, j: nat)
    requires Inv(s, Closed) && |s.timers| < |nows|
    requires forall a, b :: 0 <= a < b < |nows| ==> nows[a] <= nows[b]
    requires t in Timeouts(s, nows).0.timers && j < Timeouts(s, nows).1
    ensures nows[j] < t.deadline
  {
    var s', n := TimeoutsEnd(s, nows);
    Overdue(s', nows, n, t, j);
  }

  /** The state core_timeout leaves and the number of readings it took. */
  lemma TimeoutsEnd(s: State, nows: seq<int>) returns (s': State, n: nat)
    requires Inv(s, Closed) && |s.timers| < |nows|
    ensures (s', n) == Timeouts(s, nows) && Inv(s', Closed) && n <= |nows|
    ensures s'.timers != [] ==> 0 < n && nows[n - 1] < s'.timers[0].deadline
  {
    s', n := Timeouts(s, nows).0, Timeouts(s, nows).1;
  }

  lemma Overdue(s: State, nows: seq<int>, n: nat, t: Timer, j: nat)
    requires Inv(s, Closed) && t in s.timers && j < n <= |nows|
    requires forall a, b :: 0 <= a < b < |nows| ==> nows[a] <= nows[b]
    requires s.timers != [] ==> nows[n - 1] < s.timers[0].deadline
    ensures nows[j] < t.deadline
  {
    Unfold(s, Closed);
    EarliestFirst(s.timers, t);
    assert j < n - 1 ==> nows[j] <= nows[n - 1];
  }

  lemma EarliestFirst(ts: seq<Timer>, t: Timer)
    requires Sorted(ts) && t in ts
    ensures ts != [] && ts[0].deadline <= t.deadline
  {
    var k :| 0 <= k < |ts| && ts[k] == t;
    assert k == 0 || ts[0].deadline <= ts[k].deadline;
  }
}
