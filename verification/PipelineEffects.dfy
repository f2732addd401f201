/** What each event does to the requests it is about. */
module PipelineEffects {
  import opened Basics
  import opened Seqs
  import opened PipelineState
  import opened PipelineInv
  import opened PipelineQueues
  import opened PipelineMoves
  import opened PipelineFlags
  import opened PipelineConns
  import opened PipelineHandlers
  import opened PipelineServer
  import opened PipelineClient

  // ---------- req_done ----------

  lemma LatchRecord(s: State, q: seq<MsgId>, f: nat, o: MsgId, x: MsgId)
    requires o in s.hist.vectors && o in s.reqs && x in s.reqs && x != o
    ensures var s' := Latch(s, q, f, o);
      x in s'.reqs && s'.reqs[x] == s.reqs[x].(fdone := s'.reqs[x].fdone)
  {
  }

  lemma OwnerNamesItself(s: State, c: ConnId, o: MsgId, open: Open)
    requires Inv(s, open) && CanLatch(s, c, o, open)
    ensures s.reqs[o].fragOwner == Some(o)
  {
    Entry(s, c, o, open);
  }

  lemma DoneKeeps(s: State, c: ConnId, id: MsgId, x: MsgId, open: Open)
    requires Inv(s, open) && c in s.clients && id in s.clients[c] && (open.Closed? || id == s.clients[c][0])
    requires x in s.reqs && (x !in s.clients[c] || s.reqs[x].fragOwner != Some(x))
    ensures var s' := ReqDone(s, c, id, open).0;
      x in s'.reqs && s'.reqs[x] == s.reqs[x].(fdone := s'.reqs[x].fdone)
  {
    assert id in s.reqs && Live(s.reqs, s.clients[c]) by { Entry(s, c, id, open); }
    if IsDone(s.reqs, s.clients[c], id) && Unlatched(s.reqs[id]) {
      OwnerOf(s, c, id, open);
      var o := s.reqs[id].fragOwner.value;
      OwnerNamesItself(s, c, o, open);
      LatchRecord(s, s.clients[c], s.reqs[id].fragId, o, x);
    }
  }

  /** Telling a client changes nothing in a request but the mark of its vector, unless it is a vector's owner. */
  lemma NotifyKeeps(s: State, c: ConnId, x: MsgId, open: Open)
    requires Inv(s, open) && c in s.clients && x in s.reqs
    requires x !in s.clients[c] || s.reqs[x].fragOwner != Some(x)
    ensures var s' := Notify(s, c, open);
      x in s'.reqs && s'.reqs[x] == s.reqs[x].(fdone := s'.reqs[x].fdone)
  {
    if s.clients[c] != [] { DoneKeeps(s, c, s.clients[c][0], x, open); }
  }

  // ---------- A server connection ----------

  /** A request nobody's vector is made of: a single one, or a fragment. */
  ghost predicate Plain(s: State, x: MsgId) {
    x in s.reqs && (s.reqs[x].swallow || s.reqs[x].noreply || s.reqs[x].fragOwner != Some(x))
  }

  lemma FinishedRecord(s: State, sid: ConnId, v: ServerConn, id: MsgId, r: Req, h: History, x: MsgId)
    requires Inv(s, Closed) && Settles(s, sid, v, id, r, h) && Plain(s, x)
    ensures var s1 := Finish(s, sid, v, id, r, h);
      && Plain(s1, x) && s1.reqs[x] == (if x == id then r.(done := true, at := None) else s.reqs[x])
      && (r.fragOwner.Some? ==> r.fragOwner.value in s1.reqs && r.fragOwner.value != x)
      && s1.clients == s.clients && r.client in s.clients
  {
    OwnerRecord(s, id);
  }

  lemma SettleKeeps(s: State, sid: ConnId, v: ServerConn, id: MsgId, r: Req, h: History, out: bool, x: MsgId)
    requires Inv(s, Closed) && Settles(s, sid, v, id, r, h)
    requires Plain(s, x)
    ensures var s', r' := Settle(s, sid, v, id, r, h, out), if x == id then r.(done := true, at := None) else s.reqs[x];
      x in s'.reqs && s'.reqs[x] == r'.(fdone := s'.reqs[x].fdone)
  {
    FinishedRecord(s, sid, v, id, r, h, x);
    var s1 := Finish(s, sid, v, id, r, h);
    var s2 := if out then CancelDone(s1, id) else s1;
    var s3 := BumpOwner(s2, r.fragOwner);
    assert s3.reqs[x] == s1.reqs[x];
    PlainOutside(s3, r.client, x);
    NotifyKeeps(s3, r.client, x, Closed);
  }

  lemma PlainOutside(s: State, c: ConnId, x: MsgId)
    requires Inv(s, Closed) && c in s.clients && Plain(s, x)
    ensures x !in s.clients[c] || s.reqs[x].fragOwner != Some(x)
  {
    if x in s.clients[c] { Entry(s, c, x, Closed); }
  }

  /** The owner of a fragment that waits for its answer. */
  lemma OwnerRecord(s: State, id: MsgId)
    requires Inv(s, Closed) && id in s.reqs && s.reqs[id].at.Some? && !s.reqs[id].swallow && !s.reqs[id].noreply
    ensures s.reqs[id].client in s.clients && s.reqs[id].fragOwner != Some(id)
    ensures s.reqs[id].fragOwner.Some? ==>
      var o := s.reqs[id].fragOwner.value;
      o in s.reqs && s.reqs[o].fragOwner == Some(o) && !s.reqs[o].swallow && !s.reqs[o].noreply
  {
    Unfold(s, Closed);
    OwnerAlive(s, id);
    var c := s.reqs[id].client;
    assert ReqOk(s, id, s.reqs[id]);
    Entry(s, c, id, Closed);
    if s.reqs[id].fragOwner.Some? { Entry(s, c, s.reqs[id].fragOwner.value, Closed); }
  }

  /** A connection can be written to: its first request not yet sent leaves the in queue. If a reply is
      expected the backend now has it, behind those it had, and it waits behind them in the out queue;
      otherwise it is recycled. The other requests, the other connections and the clients do not notice. */
  lemma SentOut(s: State, sid: ConnId)
    requires Inv(s, Closed) && sid in s.servers && sid in s.hist.wire && s.servers[sid].inq != []
    ensures var s', v, id := ServerSend(s, sid), s.servers[sid], s.servers[sid].inq[0];
      && id in s.reqs && s'.clients == s.clients && s'.hist.answers == s.hist.answers
      && s'.servers.Keys == s.servers.Keys && (forall t :: t in s.servers && t != sid ==> s'.servers[t] == s.servers[t])
      && [id] + s'.servers[sid].inq == v.inq
      && (if s.reqs[id].noreply then
            && s'.servers[sid].outq == v.outq && s'.hist.wire == s.hist.wire
            && s'.reqs == s.reqs - {id} && s'.hist.freed == s.hist.freed + [id]
          else
            && s'.servers[sid].outq == v.outq + [id] && s'.hist.wire == s.hist.wire[sid := s.hist.wire[sid] + [id]]
            && s'.reqs == s.reqs && s'.timers == s.timers && s'.hist.freed == s.hist.freed)
  {
    ServerEntry(s, sid, s.servers[sid].inq[0], Closed);
    assert [s.servers[sid].inq[0]] + s.servers[sid].inq[1..] == s.servers[sid].inq;
  }

  /** A response goes to the request that has waited longest on its connection: that request is done, its
      reply is the one that came, and its timeout is gone; or, if its client has closed, it is recycled. */
  lemma AnswerDelivered(s: State, sid: ConnId, x: int, bad: bool)
    requires Inv(s, Closed) && sid in s.servers && sid in s.hist.wire && s.hist.wire[sid] != []
    ensures var s', id := Respond(s, sid, x, bad), s.hist.wire[sid][0];
      && id in s.reqs && s.servers[sid].outq == s.hist.wire[sid] && s'.clients == s.clients
      && s'.servers == s.servers[sid := s.servers[sid].(outq := s.servers[sid].outq[1..])]
      && s'.timers == Cancel(s.timers, id)
      && (if s.reqs[id].swallow then s'.reqs == s.reqs - {id} && s'.hist.freed == s.hist.freed + [id]
          else
            && id in s'.reqs && s'.reqs[id].done && s'.reqs[id].peer == Some(Backend(x))
            && s'.reqs[id].error == (s.reqs[id].error || (bad && s.reqs[id].fragId != 0)))
  {
    AnswerSettles(s, sid, x, bad);
    var v := s.servers[sid];
    var id, h := v.outq[0], AnswerHistory(s.hist, sid, x);
    if !s.reqs[id].swallow {
      OwnerRecord(s, id);
      SettleKeeps(s, sid, v.(outq := v.outq[1..]), id, WithAnswer(s.reqs[id], x, bad), h, true, id);
    }
  }

  /** A request of a closing connection after its turn: recycled if nobody waits for it, failed otherwise. */
  ghost predicate Resolved(x: MsgId, was: Req, err: int, s': State) {
    if was.swallow || was.noreply then x !in s'.reqs
    else x in s'.reqs && s'.reqs[x].done && s'.reqs[x].error && s'.reqs[x].err == err
  }

  /** A request that is not the one whose turn it is. */
  lemma FailOneKeeps(s: State, sid: ConnId, v: ServerConn, id: MsgId, err: int, out: bool, x: MsgId)
    requires Inv(s, Closed) && sid in s.servers && sid !in s.hist.wire && Takes(s.servers[sid], id, v)
    requires id in s.reqs && s.reqs[id].at == Some(sid)
    ensures var s' := FailOne(s, sid, v, id, err, out);
      && (x != id && Plain(s, x) ==> Plain(s', x) && s'.reqs[x] == s.reqs[x].(fdone := s'.reqs[x].fdone))
      && (x !in s.reqs ==> x !in s'.reqs)
  {
    FailSettles(s, sid, v, id, err);
    if !(s.reqs[id].swallow || s.reqs[id].noreply) {
      var r := Failed(s.reqs[id], err);
      if Plain(s, x) { SettleKeeps(s, sid, v, id, r, s.hist, out, x); }
      SettleKeys(s, sid, v, id, r, s.hist, out);
    }
  }

  lemma SettleKeys(s: State, sid: ConnId, v: ServerConn, id: MsgId, r: Req, h: History, out: bool)
    requires Inv(s, Closed) && Settles(s, sid, v, id, r, h)
    ensures Settle(s, sid, v, id, r, h, out).reqs.Keys == s.reqs.Keys
  {
    var s1 := Finish(s, sid, v, id, r, h);
    var s2 := if out then CancelDone(s1, id) else s1;
    NotifyKeys(BumpOwner(s2, r.fragOwner), r.client);
  }

  lemma NotifyKeys(s: State, c: ConnId)
    requires Inv(s, Closed) && c in s.clients
    ensures Notify(s, c, Closed).reqs.Keys == s.reqs.Keys
  {
    if s.clients[c] != [] {
      var id := s.clients[c][0];
      Entry(s, c, id, Closed);
      if IsDone(s.reqs, s.clients[c], id) && Unlatched(s.reqs[id]) {
        OwnerOf(s, c, id, Closed);
        LatchKeys(s, s.clients[c], s.reqs[id].fragId, s.reqs[id].fragOwner.value);
      }
    }
  }

  lemma LatchKeys(s: State, q: seq<MsgId>, f: nat, o: MsgId)
    requires o in s.hist.vectors && o in s.reqs
    ensures Latch(s, q, f, o).reqs.Keys == s.reqs.Keys
  {
  }

  lemma FailOneResolves(s: State, sid: ConnId, v: ServerConn, id: MsgId, err: int, out: bool)
    requires Inv(s, Closed) && sid in s.servers && sid !in s.hist.wire && Takes(s.servers[sid], id, v)
    requires id in s.reqs && s.reqs[id].at == Some(sid)
    ensures var s' := FailOne(s, sid, v, id, err, out);
      Resolved(id, s.reqs[id], err, s') && (id in s'.reqs ==> Plain(s', id))
  {
    FailSettles(s, sid, v, id, err);
    if !(s.reqs[id].swallow || s.reqs[id].noreply) {
      OwnerRecord(s, id);
      SettleKeeps(s, sid, v, id, Failed(s.reqs[id], err), s.hist, out, id);
    }
  }

  ghost predicate Kept(s: State, x: MsgId, s': State)
    requires Plain(s, x)
  {
    Plain(s', x) && s'.reqs[x] == s.reqs[x].(fdone := s'.reqs[x].fdone)
  }

  /** What emptying a closing connection does to one request. */
  ghost predicate Emptied(s: State, sid: ConnId, err: int, x: MsgId, s': State)
    requires sid in s.servers
  {
    && (InServer(s.servers[sid], x) ==> x in s.reqs && Resolved(x, s.reqs[x], err, s'))
    && (Plain(s, x) && !InServer(s.servers[sid], x) ==> Kept(s, x, s'))
    && (x !in s.reqs ==> x !in s'.reqs)
  }

  /** The step of the loops, at the head of one queue. */
  lemma EmptiedStep(s: State, sid: ConnId, v: ServerConn, id: MsgId, err: int, out: bool, x: MsgId, s': State)
    requires Inv(s, Closed) && sid in s.servers && sid !in s.hist.wire && Takes(s.servers[sid], id, v)
    requires id in s.reqs && s.reqs[id].at == Some(sid)
    requires Emptied(FailOne(s, sid, v, id, err, out), sid, err, x, s')
    ensures Emptied(s, sid, err, x, s')
  {
    var s1 := FailOne(s, sid, v, id, err, out);
    FailOneKeeps(s, sid, v, id, err, out, x);
    FailOneResolves(s, sid, v, id, err, out);
    if InServer(s.servers[sid], x) {
      ServerEntry(s, sid, x, Closed);
      if !(s.reqs[x].swallow || s.reqs[x].noreply) { OwnerRecord(s, x); }
    }
  }

  lemma {:induction false} FailAllResolves(s: State, sid: ConnId, err: int, x: MsgId)
    requires Inv(s, Closed) && sid in s.servers && sid !in s.hist.wire
    ensures Emptied(s, sid, err, x, FailAll(s, sid, err))
    decreases |s.servers[sid].inq| + |s.servers[sid].outq|
  {
    var v, s' := s.servers[sid], FailAll(s, sid, err);
    if v.inq != [] {
      ServerEntry(s, sid, v.inq[0], Closed);
      TakeIn(v);
      FailAllResolves(FailIn(s, sid, err), sid, err, x);
      EmptiedStep(s, sid, v.(inq := v.inq[1..]), v.inq[0], err, false, x, s');
    } else if v.outq != [] {
      ServerEntry(s, sid, v.outq[0], Closed);
      TakeOut(v);
      FailAllResolves(FailOut(s, sid, err), sid, err, x);
      EmptiedStep(s, sid, v.(outq := v.outq[1..]), v.outq[0], err, true, x, s');
    }
  }

  /** A closing connection fails every request it holds, recycles those nobody waits for, and touches no
      other request that is no vector's owner. */
  lemma CloseResolves(s: State, sid: ConnId, err: int, x: MsgId)
    requires Inv(s, Closed) && sid in s.servers
    ensures Emptied(s, sid, err, x, CloseServer(s, sid, err))
  {
    InvUnwire(s, sid);
    FailAllResolves(Unwire(s, sid), sid, err, x);
  }

  lemma FailOneSame(s: State, sid: ConnId, v: ServerConn, id: MsgId, err: int, out: bool)
    requires Inv(s, Closed) && sid in s.servers && sid !in s.hist.wire && Takes(s.servers[sid], id, v)
    requires id in s.reqs && s.reqs[id].at == Some(sid)
    ensures var h := FailOne(s, sid, v, id, err, out).hist;
      h.vectors == s.hist.vectors && h.answers == s.hist.answers
    ensures FailOne(s, sid, v, id, err, out).nextId == s.nextId
  {
    FailSettles(s, sid, v, id, err);
  }

  lemma {:induction false} FailAllSame(s: State, sid: ConnId, err: int)
    requires Inv(s, Closed) && sid in s.servers && sid !in s.hist.wire
    ensures var s' := FailAll(s, sid, err);
      s'.hist.vectors == s.hist.vectors && s'.hist.answers == s.hist.answers && s'.nextId == s.nextId
    decreases |s.servers[sid].inq| + |s.servers[sid].outq|
  {
    var v := s.servers[sid];
    if v.inq != [] {
      ServerEntry(s, sid, v.inq[0], Closed);
      TakeIn(v);
      FailOneSame(s, sid, v.(inq := v.inq[1..]), v.inq[0], err, false);
      FailAllSame(FailIn(s, sid, err), sid, err);
    } else if v.outq != [] {
      ServerEntry(s, sid, v.outq[0], Closed);
      TakeOut(v);
      FailOneSame(s, sid, v.(outq := v.outq[1..]), v.outq[0], err, true);
      FailAllSame(FailOut(s, sid, err), sid, err);
    }
  }

  lemma {:induction false} FailAllServers(s: State, sid: ConnId, err: int)
    requires Inv(s, Closed) && sid in s.servers && sid !in s.hist.wire
    ensures FailAll(s, sid, err).servers == s.servers[sid := ServerConn([], [])]
    decreases |s.servers[sid].inq| + |s.servers[sid].outq|
  {
    if s.servers[sid].inq != [] {
      FailAllServers(FailIn(s, sid, err), sid, err);
    } else if s.servers[sid].outq != [] {
      FailAllServers(FailOut(s, sid, err), sid, err);
    }
  }

  /** A closing connection answers nothing, takes no vector apart, and no other connection is touched. */
  lemma CloseSame(s: State, sid: ConnId, err: int)
    requires Inv(s, Closed) && sid in s.servers
    ensures var s' := CloseServer(s, sid, err);
      && s'.hist.vectors == s.hist.vectors && s'.hist.answers == s.hist.answers
      && s'.servers == s.servers - {sid}
  {
    InvUnwire(s, sid);
    FailAllSame(Unwire(s, sid), sid, err);
    FailAllServers(Unwire(s, sid), sid, err);
  }

  /** The head of the timeout tree, once expired, is failed with the others of its connection, or recycled. */
  lemma ExpiredFails(s: State, x: MsgId)
    requires Inv(s, Closed) && s.timers != []
    requires s.timers[0].id in s.reqs && !s.reqs[s.timers[0].id].done
    ensures s.timers[0].conn in s.servers && InServer(s.servers[s.timers[0].conn], s.timers[0].id)
    ensures Emptied(s, s.timers[0].conn, ETIMEDOUT, x, Expire(s))
  {
    FirstTimer(s);
    var t := s.timers[0];
    Unfold(s, Closed);
    assert ReqOk(s, t.id, s.reqs[t.id]);
    InvUnwire(s, t.conn);
    FailAllResolves(CancelDone(Unwire(s, t.conn), t.id), t.conn, ETIMEDOUT, x);
  }

  // ---------- A client connection ----------

  /** A closing client's requests that are done are recycled; the answers to the others will be swallowed;
      no other request changes. */
  lemma CloseSwallows(s: State, c: ConnId, x: MsgId)
    requires Inv(s, Closed) && c in s.clients && x in s.reqs
    ensures var s' := ClientClose(s, c);
      if x !in s.clients[c] then x in s'.reqs && s'.reqs[x] == s.reqs[x]
      else if s.reqs[x].done then x !in s'.reqs && x in s'.hist.freed && !Armed(s'.timers, x)
      else x in s'.reqs && s'.reqs[x] == s.reqs[x].(swallow := true)
  {
    QueueLive(s, c, Closed);
    Unfold(s, Closed);
    DrainOk(s, s.clients[c]);
  }

  /** A request that goes to a server: last in its client's queue and in the server's, its timeout set. */
  lemma ForwardedTo(s: State, r: Req, sid: ConnId, now: int, open: Open)
    requires Inv(s, open) && Forwardable(s, r, open) && sid in s.servers
    ensures var s', id := ForwardTo(s, r, sid, now, open), s.nextId;
      && s'.nextId == id + 1 && s'.reqs == s.reqs[id := r.(at := Some(sid))]
      && s'.hist == AddHistory(s.hist, r.(at := Some(sid)), id)
      && s'.servers == s.servers[sid := s.servers[sid].(inq := s.servers[sid].inq + [id])]
      && s'.clients == (if r.noreply then s.clients else s.clients[r.client := s.clients[r.client] + [id]])
      && (s.timeout > 0 && !r.noreply ==> Timer(id, sid, now + s.timeout) in s'.timers)
  {
    assert Sorted(s.timers) && !Armed(s.timers, s.nextId) by {
      Unfold(s, open);
      Fresh(s, open);
    }
    if s.timeout > 0 { ScheduleOk(s.timers, Timer(s.nextId, sid, now + s.timeout)); }
  }

  lemma HandshakeAhead(s: State, c: ConnId, sid: ConnId, now: int, open: Open)
    requires Inv(s, open) && sid in s.servers
    ensures var s' := Handshake(s, c, sid, false, now, open);
      && s'.nextId == s.nextId + 1 && s'.reqs == s.reqs[s.nextId := HandshakeReq(c, sid)]
      && s'.servers == s.servers[sid := s.servers[sid].(inq := s.servers[sid].inq + [s.nextId])]
      && s'.hist.vectors == s.hist.vectors && s'.hist.stuck == s.hist.stuck
  {
  }

  /** The two entries of a request and of the handshake ahead of it. */
  lemma ForwardedBehind(s: State, r: Req, sid: ConnId, now: int, open: Open)
    requires Inv(s, open) && Forwardable(s, r, open) && sid in s.servers
    ensures var s1 := Handshake(s, r.client, sid, false, now, open);
      && Forwardable(s1, r, open)
      && var s' := ForwardTo(s1, r, sid, now, open);
      && s'.servers == s.servers[sid := s.servers[sid].(inq := s.servers[sid].inq + [s.nextId, s.nextId + 1])]
      && s.nextId in s'.reqs && s'.reqs[s.nextId].swallow
  {
    HandshakeAhead(s, r.client, sid, now, open);
    ForwardedTo(Handshake(s, r.client, sid, false, now, open), r, sid, now, open);
    assert s.servers[sid].inq + [s.nextId] + [s.nextId + 1] == s.servers[sid].inq + [s.nextId, s.nextId + 1];
  }

  /** A new request enters the queues, behind the handshake if one is needed. */
  lemma Forwarded(s: State, r: Req, sid: ConnId, auth: bool, now: int, open: Open)
    requires Inv(s, open) && Forwardable(s, r, open) && sid in s.servers
    ensures var s', id := Forward(s, r, To(sid, auth, now), open), if auth then s.nextId + 1 else s.nextId;
      && s'.nextId == id + 1 && id in s'.reqs && s'.reqs[id] == r.(at := Some(sid))
      && s'.servers == s.servers[sid :=
           s.servers[sid].(inq := s.servers[sid].inq + (if auth then [s.nextId, id] else [id]))]
      && s'.clients == (if r.noreply then s.clients else s.clients[r.client := s.clients[r.client] + [id]])
      && (s.timeout > 0 && !r.noreply ==> Timer(id, sid, now + s.timeout) in s'.timers)
      && (auth ==> s.nextId in s'.reqs && s'.reqs[s.nextId].swallow)
  {
    if auth {
      HandshakeAhead(s, r.client, sid, now, open);
      ForwardedBehind(s, r, sid, now, open);
      ForwardedTo(Handshake(s, r.client, sid, false, now, open), r, sid, now, open);
    } else {
      ForwardedTo(s, r, sid, now, open);
    }
  }

  /** A request that can be sent nowhere is done and failed, and waits for its turn in the client's queue. */
  lemma ForwardFailed(s: State, r: Req, err: int, open: Open)
    requires Inv(s, open) && Forwardable(s, r, open)
    ensures var s', id := Forward(s, r, Nowhere(err), open), s.nextId;
      && s'.nextId == id + 1 && s'.servers == s.servers && s'.timers == s.timers
      && (if r.noreply then id !in s'.reqs && id in s'.hist.freed && s'.clients == s.clients
          else
            && id in s'.reqs && s'.reqs[id].done && s'.reqs[id].error && s'.reqs[id].err == err
            && s'.reqs[id].fragOwner == r.fragOwner && s.hist.stuck <= s'.hist.stuck
            && (r.fragOwner.Some? && r.fragOwner.value in s.hist.vectors ==> id in s'.hist.stuck)
            && s'.clients == s.clients[r.client := s.clients[r.client] + [id]])
  {
    Fresh(s, open);
    if !r.noreply {
      NotOwner(s, r, open);
      NotifyKeeps(AddFailed(s, r, err, open), r.client, s.nextId, Left(open));
    }
  }

  lemma NotOwner(s: State, r: Req, open: Open)
    requires Inv(s, open) && Forwardable(s, r, open)
    ensures r.fragOwner != Some(s.nextId)
  {
    Fresh(s, open);
  }

  /** What the records say of a fragment that was sent where `route` says. */
  ghost predicate Placed(s: State, x: MsgId, o: MsgId, route: Route) {
    && x in s.reqs && s.reqs[x].fragOwner == Some(o)
    && match route
       case To(sid, _, _) => s.reqs[x].at == Some(sid) && !s.reqs[x].done
       case Nowhere(err) => s.reqs[x].done && s.reqs[x].error && s.reqs[x].err == err && x in s.hist.stuck
  }

  lemma FragmentHistoryTo(s: State, r: Req, sid: ConnId, now: int, open: Open)
    requires Inv(s, open) && Forwardable(s, r, open) && sid in s.servers
    requires open.Opened? && open.owner in s.hist.vectors && r.fragOwner == Some(open.owner)
    ensures var s' := ForwardTo(s, r, sid, now, open);
      open.owner in s'.hist.vectors && s'.hist.vectors[open.owner] == s.hist.vectors[open.owner] + [s'.nextId - 1]
  {
    NotOwner(s, r, open);
  }

  lemma FragmentHistory(s: State, r: Req, route: Route, open: Open)
    requires Inv(s, open) && Forwardable(s, r, open) && Reachable(s, route)
    requires open.Opened? && open.owner in s.hist.vectors && r.fragOwner == Some(open.owner)
    ensures var s' := Forward(s, r, route, open);
      open.owner in s'.hist.vectors && s'.hist.vectors[open.owner] == s.hist.vectors[open.owner] + [s'.nextId - 1]
  {
    match route
    case To(sid, auth, now) =>
      if auth {
        HandshakeAhead(s, r.client, sid, now, open);
        FragmentHistoryTo(Handshake(s, r.client, sid, false, now, open), r, sid, now, open);
      } else {
        FragmentHistoryTo(s, r, sid, now, open);
      }
    case Nowhere(err) => NotOwner(s, r, open);
  }

  /** A fragment is forwarded: it comes last in its client's queue and in its vector. */
  lemma FragmentPlaced(s: State, r: Req, route: Route, open: Open)
    requires Inv(s, open) && Forwardable(s, r, open) && Reachable(s, route)
    requires open.Opened? && open.owner in s.hist.vectors && r.fragOwner == Some(open.owner)
    ensures var s', o := Forward(s, r, route, open), open.owner;
      && o in s'.hist.vectors && s'.hist.vectors[o] == s.hist.vectors[o] + [s'.nextId - 1]
      && r.client in s'.clients && s'.clients[r.client] == s.clients[r.client] + [s'.nextId - 1]
      && Placed(s', s'.nextId - 1, o, route) && s.nextId < s'.nextId
  {
    FragmentHistory(s, r, route, open);
    match route
    case To(sid, auth, now) => Forwarded(s, r, sid, auth, now, open);
    case Nowhere(err) => ForwardFailed(s, r, err, open);
  }

  lemma FragmentPlacedIn(s: State, r: Req, route: Route, open: Open) returns (s': State, x: MsgId)
    requires Inv(s, open) && Forwardable(s, r, open) && Reachable(s, route)
    requires open.Opened? && open.owner in s.hist.vectors && r.fragOwner == Some(open.owner)
    ensures s' == Forward(s, r, route, open) && s.nextId <= x
    ensures open.owner in s'.hist.vectors && s'.hist.vectors[open.owner] == s.hist.vectors[open.owner] + [x]
    ensures r.client in s'.clients && s'.clients[r.client] == s.clients[r.client] + [x]
    ensures Placed(s', x, open.owner, route)
  {
    FragmentPlaced(s, r, route, open);
    s' := Forward(s, r, route, open);
    x := s'.nextId - 1;
  }

  lemma ForwardStuck(s: State, r: Req, route: Route, open: Open)
    requires Inv(s, open) && Forwardable(s, r, open) && Reachable(s, route)
    ensures s.hist.stuck <= Forward(s, r, route, open).hist.stuck
  {
    match route
    case To(sid, auth, now) =>
      if auth {
        HandshakeAhead(s, r.client, sid, now, open);
        ForwardedTo(Handshake(s, r.client, sid, false, now, open), r, sid, now, open);
      } else {
        ForwardedTo(s, r, sid, now, open);
      }
    case Nowhere(err) => if !r.noreply { ForwardFailed(s, r, err, open); }
  }

  /** Forwarding one request keeps where the others were sent. */
  lemma ForwardKeeps(s: State, r: Req, route: Route, open: Open, x: MsgId)
    requires Inv(s, open) && Forwardable(s, r, open) && Reachable(s, route)
    requires x in s.reqs && (x !in s.clients[r.client] || s.reqs[x].fragOwner != Some(x))
    ensures var s' := Forward(s, r, route, open);
      x in s'.reqs && s'.reqs[x] == s.reqs[x].(fdone := s'.reqs[x].fdone)
  {
    Fresh(s, open);
    match route
    case To(sid, auth, now) =>
      if auth {
        HandshakeAhead(s, r.client, sid, now, open);
        var s1 := Handshake(s, r.client, sid, false, now, open);
        Fresh(s1, open);
        ForwardedTo(s1, r, sid, now, open);
      } else {
        ForwardedTo(s, r, sid, now, open);
      }
    case Nowhere(err) =>
      if !r.noreply {
        NotifyKeeps(AddFailed(s, r, err, open), r.client, x, Left(open));
      }
  }

  /** The fragments the loop over the routes adds: one for each route, in their order, behind what was
      there. Stated for whoever asks, Lock(1, u). */
  ghost predicate AllPlaced(s: State, c: ConnId, o: MsgId, q: seq<MsgId>, v: seq<MsgId>, routes: seq<Route>) {
    forall u :: Lock(1, u) ==>
      && o in s.hist.vectors && c in s.clients
      && |s.hist.vectors[o]| == |v| + |routes| && s.hist.vectors[o][..|v|] == v
      && s.clients[c] == q + s.hist.vectors[o][|v|..]
      && forall i :: 0 <= i < |routes| ==> Placed(s, s.hist.vectors[o][|v| + i], o, routes[i])
  }

  lemma {:induction false} FragmentsKeep(s: State, o: MsgId, routes: seq<Route>, x: MsgId, route: Route)
    requires Inv(s, OpenFor(o, routes)) && AllReachable(s, routes)
    requires Placed(s, x, o, route) && x != o
    ensures Placed(Fragments(s, o, routes), x, o, route)
    decreases |routes|
  {
    if routes != [] {
      FragmentsStep(s, o, routes);
      var r := FragReq(s.reqs[o].client, o, s.reqs[o].fragId);
      ForwardKeeps(s, r, routes[0], Opened(o, |routes|), x);
      ForwardStuck(s, r, routes[0], Opened(o, |routes|));
      FragmentsKeep(Forward(s, r, routes[0], Opened(o, |routes|)), o, routes[1..], x, route);
    }
  }

  lemma OwnerPlace(s: State, c: ConnId, o: MsgId, open: Open)
    requires Inv(s, open) && c in s.clients && o in s.clients[c]
    ensures o in s.reqs && s.reqs[o].client == c && o < s.nextId
  {
    Entry(s, c, o, open);
  }

  /** One round of the loop: s1 is the state after it, and x the fragment it added. */
  lemma FirstPlaced(s: State, c: ConnId, o: MsgId, routes: seq<Route>) returns (s1: State, x: MsgId)
    requires Inv(s, OpenFor(o, routes)) && AllReachable(s, routes) && routes != []
    requires o in s.hist.vectors && c in s.clients && o in s.clients[c]
    ensures Inv(s1, OpenFor(o, routes[1..])) && AllReachable(s1, routes[1..])
    ensures Fragments(s, o, routes) == Fragments(s1, o, routes[1..])
    ensures o in s1.hist.vectors && s1.hist.vectors[o] == s.hist.vectors[o] + [x]
    ensures c in s1.clients && o in s1.clients[c] && s1.clients[c] == s.clients[c] + [x]
    ensures Placed(s1, x, o, routes[0]) && x != o
  {
    OwnerPlace(s, c, o, OpenFor(o, routes));
    FragmentsStep(s, o, routes);
    s1, x := FragmentPlacedIn(s, FragReq(s.reqs[o].client, o, s.reqs[o].fragId), routes[0], Opened(o, |routes|));
  }

  lemma {:induction false} FragmentsPlaced(s: State, c: ConnId, o: MsgId, routes: seq<Route>)
    requires Inv(s, OpenFor(o, routes)) && AllReachable(s, routes)
    requires o in s.hist.vectors && c in s.clients && o in s.clients[c]
    ensures AllPlaced(Fragments(s, o, routes), c, o, s.clients[c], s.hist.vectors[o], routes)
    decreases |routes|
  {
    if routes == [] {
      NonePlaced(s, c, o);
    } else {
      var s1, x := FirstPlaced(s, c, o, routes);
      FragmentsPlaced(s1, c, o, routes[1..]);
      FragmentsKeep(s1, o, routes[1..], x, routes[0]);
      OneMorePlaced(Fragments(s1, o, routes[1..]), c, o, s.clients[c], s.hist.vectors[o], routes, x);
    }
  }

  lemma NonePlaced(s: State, c: ConnId, o: MsgId)
    requires o in s.hist.vectors && c in s.clients
    ensures AllPlaced(s, c, o, s.clients[c], s.hist.vectors[o], [])
  {
    assert s.clients[c] + [] == s.clients[c];
  }

  lemma OneMorePlaced(s: State, c: ConnId, o: MsgId, q: seq<MsgId>, v: seq<MsgId>, routes: seq<Route>, x: MsgId)
    requires routes != [] && AllPlaced(s, c, o, q + [x], v + [x], routes[1..]) && Placed(s, x, o, routes[0])
    ensures AllPlaced(s, c, o, q, v, routes)
  {
    assert Lock(1, 0);
    var all := s.hist.vectors[o];
    assert all[..|v| + 1][|v|] == x;
    assert all[..|v|] == all[..|v| + 1][..|v|];
    assert all[|v|..] == [x] + all[|v| + 1..];
    forall i | 0 <= i < |routes| ensures Placed(s, all[|v| + i], o, routes[i]) {
      if i > 0 { assert Placed(s, all[|v + [x]| + (i - 1)], o, routes[1..][i - 1]); }
    }
  }

  /** A split request: it enters its client's queue followed by its fragments, one for each route and in
      their order, and each fragment is where its route says. */
  lemma VectorReceived(s: State, c: ConnId, routes: seq<Route>)
    requires Inv(s, Closed) && c in s.clients && routes != [] && AllReachable(s, routes)
    ensures var s', o := RecvVector(s, c, routes), s.nextId;
      && o in s'.hist.vectors && |s'.hist.vectors[o]| == |routes|
      && s'.clients[c] == s.clients[c] + [o] + s'.hist.vectors[o]
      && forall i :: 0 <= i < |routes| ==> Placed(s', s'.hist.vectors[o][i], o, routes[i])
  {
    var s1, o := OpenVector(s, c, routes), s.nextId;
    FragmentsPlaced(s1, c, o, routes);
    assert AllPlaced(Fragments(s1, o, routes), c, o, s1.clients[c], [], routes);
    assert Lock(1, 0);
  }

  /** A request that is not split: it comes last in its client's queue, unless no reply is expected, and
      either goes to its server or fails there and then; one without reply that fails is recycled. */
  lemma SingleReceived(s: State, c: ConnId, noreply: bool, route: Route)
    requires Inv(s, Closed) && c in s.clients && Reachable(s, route)
    ensures var s' := RecvSingle(s, c, noreply, route);
      var id := s'.nextId - 1;
      && s'.clients == (if noreply then s.clients else s.clients[c := s.clients[c] + [id]])
      && match route
         case To(sid, auth, now) =>
           && id in s'.reqs && s'.reqs[id].at == Some(sid) && s'.reqs[id].noreply == noreply && !s'.reqs[id].swallow
           && s'.servers[sid].inq == s.servers[sid].inq + (if auth then [id - 1, id] else [id])
           && (s.timeout > 0 && !noreply ==> Timer(id, sid, now + s.timeout) in s'.timers)
         case Nowhere(err) =>
           if noreply then id in s'.hist.freed
           else id in s'.reqs && s'.reqs[id].done && s'.reqs[id].error && s'.reqs[id].err == err
  {
    Fresh(s, Closed);
    match route
    case To(sid, auth, now) => Forwarded(s, SingleReq(c, noreply), sid, auth, now, Closed);
    case Nowhere(err) => ForwardFailed(s, SingleReq(c, noreply), err, Closed);
  }

  // ---------- Writing to a client ----------

  /** Replies are collected until the limit, the end of the queue, or the first request that is not done. */
  lemma CollectsAll(s: State, c: ConnId, limit: nat)
    requires Inv(s, Closed) && c in s.clients && Live(s.reqs, s.clients[c])
    ensures var p := Picks(s, c, 0, limit);
      p.1 == limit ||
      (c in p.0.clients && (p.1 == |p.0.clients[c]| ||
        (Live(p.0.reqs, p.0.clients[c]) && !IsDone(p.0.reqs, p.0.clients[c], p.0.clients[c][p.1]))))
  {
    assert Lock(1, 0);
  }

  /** Of a queue q, the requests from k on are gone if they are among the first `full` of them, which are
      written, or if their reply is empty and they come before m; what is written and not empty is sent. */
  ghost predicate Written(q: seq<MsgId>, sent: seq<MsgId>, k: nat, m: nat, full: nat, zero: set<MsgId>,
                          q': seq<MsgId>, sent': seq<MsgId>)
    requires k + full <= m <= |q|
  {
    && sent' == sent + Without(q[k..k + full], zero)
    && q' == q[..k] + Without(q[k + full..m], zero) + q[m..]
  }

  function Logs(x: MsgId, zero: set<MsgId>): seq<MsgId> {
    if x in zero then [] else [x]
  }

  lemma WithoutOne(x: MsgId, zero: set<MsgId>)
    ensures Without([x], zero) == Logs(x, zero)
  {
    assert [x][..0] == [];
  }

  lemma WithoutFirst(q: seq<MsgId>, a: nat, b: nat, zero: set<MsgId>)
    requires a < b <= |q|
    ensures Without(q[a..b], zero) == Logs(q[a], zero) + Without(q[a + 1..b], zero)
  {
    var x, rest := q[a], q[a + 1..b];
    assert q[a..b] == [x] + rest;
    WithoutOne(x, zero);
    WithoutConcat([x], rest, zero);
  }

  lemma SliceAgain(q: seq<MsgId>, full: nat, m: nat)
    requires 0 < full <= m <= |q|
    ensures q[1..][0..full - 1] == q[1..full] && q[1..][full - 1..m - 1] == q[full..m] && q[1..][m - 1..] == q[m..]
  {
  }

  lemma WrittenFirst(q: seq<MsgId>, sent: seq<MsgId>, m: nat, full: nat, zero: set<MsgId>, q': seq<MsgId>,
                     sent': seq<MsgId>)
    requires 0 < full <= m <= |q|
    requires Written(q[1..], sent + Logs(q[0], zero), 0, m - 1, full - 1, zero, q', sent')
    ensures Written(q, sent, 0, m, full, zero, q', sent')
  {
    SliceAgain(q, full, m);
    assert q[1..][..0] == q[..0];
    WithoutFirst(q, 0, full, zero);
    Assoc(sent, Logs(q[0], zero), Without(q[1..full], zero));
  }

  lemma WrittenSkip(q: seq<MsgId>, sent: seq<MsgId>, k: nat, m: nat, zero: set<MsgId>, q': seq<MsgId>,
                    sent': seq<MsgId>)
    requires k < m <= |q| && q[k] !in zero && Written(q, sent, k + 1, m, 0, zero, q', sent')
    ensures Written(q, sent, k, m, 0, zero, q', sent')
  {
    WithoutFirst(q, k, m, zero);
    assert q[..k + 1] == q[..k] + [q[k]];
    assert q[k..k] == q[k + 1..k + 1];
  }

  lemma WrittenEmpty(q: seq<MsgId>, sent: seq<MsgId>, k: nat, m: nat, zero: set<MsgId>, q': seq<MsgId>,
                     sent': seq<MsgId>)
    requires k < m <= |q| && q[k] in zero && Written(RemoveAt(q, k), sent, k, m - 1, 0, zero, q', sent')
    ensures Written(q, sent, k, m, 0, zero, q', sent')
  {
    var q1 := RemoveAt(q, k);
    assert q1[..k] == q[..k];
    assert q1[k..m - 1] == q[k + 1..m];
    assert q1[m - 1..] == q[m..];
    assert q1[k..k] == q[k..k] == [];
    WithoutFirst(q, k, m, zero);
    assert Without(q[k..m], zero) == Without(q[k + 1..m], zero);
  }

  ghost predicate Released(s: State, c: ConnId, k: nat, m: nat, full: nat, zero: set<MsgId>, s': State)
    requires c in s.clients && k + full <= m <= |s.clients[c]|
  {
    && c in s.hist.sent && c in s'.hist.sent && c in s'.clients
    && Written(s.clients[c], s.hist.sent[c], k, m, full, zero, s'.clients[c], s'.hist.sent[c])
  }

  lemma ReleaseOneIs(s: State, c: ConnId, k: nat, m: nat, empty: bool)
    requires Inv(s, Closed) && Picked(s, c, m) && k < m
    requires if empty then s.clients[c][k] in s.hist.parts else k == 0
    ensures var s', q := ReleaseOne(s, c, k, m, empty), s.clients[c];
      && s'.clients[c] == RemoveAt(q, k)
      && c in s.hist.sent && c in s'.hist.sent
      && s'.hist.sent[c] == s.hist.sent[c] + (if empty then [] else [q[k]])
  {
    HasLog(s, c);
  }

  lemma HasLog(s: State, c: ConnId)
    requires Inv(s, Closed) && c in s.clients
    ensures c in s.hist.sent
  {
    Unfold(s, Closed);
    assert LoggedAt(s, c);
  }

  lemma {:induction false} ReleasesEmpty(s: State, c: ConnId, k: nat, m: nat, zero: set<MsgId>)
    requires Inv(s, Closed) && Picked(s, c, m) && k <= m && zero <= s.hist.parts
    ensures Released(s, c, k, m, 0, zero, Releases(s, c, k, m, 0, zero))
    decreases m - k
  {
    var q, s' := s.clients[c], Releases(s, c, k, m, 0, zero);
    HasLog(s, c);
    if k == m {
      assert q == q[..k] + [] + q[k..];
    } else {
      if q[k] in zero {
        ReleaseOneIs(s, c, k, m, true);
        ReleasesEmpty(ReleaseOne(s, c, k, m, true), c, k, m - 1, zero);
        WrittenEmpty(q, s.hist.sent[c], k, m, zero, s'.clients[c], s'.hist.sent[c]);
      } else {
        ReleasesEmpty(s, c, k + 1, m, zero);
        WrittenSkip(q, s.hist.sent[c], k, m, zero, s'.clients[c], s'.hist.sent[c]);
      }
    }
  }

  lemma {:induction false} ReleasesWritten(s: State, c: ConnId, m: nat, full: nat, zero: set<MsgId>)
    requires Inv(s, Closed) && Picked(s, c, m) && full <= m && zero <= s.hist.parts
    ensures Released(s, c, 0, m, full, zero, Releases(s, c, 0, m, full, zero))
    decreases full
  {
    if full == 0 {
      ReleasesEmpty(s, c, 0, m, zero);
    } else {
      var q, s' := s.clients[c], Releases(s, c, 0, m, full, zero);
      ReleaseOneIs(s, c, 0, m, q[0] in zero);
      var s1 := ReleaseOne(s, c, 0, m, q[0] in zero);
      assert s1.clients[c] == q[1..];
      ReleasesWritten(s1, c, m - 1, full - 1, zero);
      WrittenFirst(q, s.hist.sent[c], m, full, zero, s'.clients[c], s'.hist.sent[c]);
    }
  }

  /** One write to a client: of the replies collected, those written completely are recorded as sent and
      their requests leave the queue, with the requests whose reply is empty; the rest stays, in order. */
  lemma WriteReleases(s: State, c: ConnId, limit: nat, full: nat, zero: set<MsgId>, part: nat)
    requires Inv(s, Closed) && c in s.clients && Live(s.reqs, s.clients[c])
    ensures var p := Picks(s, c, 0, limit);
      && c in p.0.clients && p.1 <= |p.0.clients[c]|
      && Released(p.0, c, 0, p.1, if full <= p.1 then full else p.1, zero * p.0.hist.parts,
           ClientSend(s, c, limit, full, zero, part))
  {
    var p := Picks(s, c, 0, limit);
    ReleasesWritten(p.0, c, p.1, if full <= p.1 then full else p.1, zero * p.0.hist.parts);
  }
}
