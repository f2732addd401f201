/** Moves that change flags or server queues, or unlink one request, keep the invariant. */
module PipelineFlags {
  import opened Basics
  import opened Seqs
  import opened PipelineState
  import opened PipelineInv
  import opened PipelineQueues
  import opened PipelineMoves

  // ---------- Flags and server queues ----------

  ghost predicate QuietHistory(s: State, h': History) {
    && h' == s.hist.(wire := h'.wire, answers := h'.answers)
    && h'.wire.Keys <= s.hist.wire.Keys
    && (forall x :: x in s.hist.answers ==> x in h'.answers && h'.answers[x] == s.hist.answers[x])
    && (forall x :: x in h'.answers ==> x in s.hist.answers || x in s.reqs)
  }

  ghost predicate Keeps(r: Req, r': Req, open: Open) {
    FlagStep(r, r', open) && r'.ferror == r.ferror && (!r'.done ==> r'.at == r.at && r'.noreply == r.noreply)
  }

  lemma InvFlags(s: State, s': State)
    requires Inv(s, Closed) && Links(s')
    requires s' == s.(reqs := s'.reqs, servers := s'.servers, hist := s'.hist)
    requires s'.reqs.Keys == s.reqs.Keys && QuietHistory(s, s'.hist)
    requires forall id :: id in s.reqs ==> Keeps(s.reqs[id], s'.reqs[id], Closed)
    requires forall id :: id in s.reqs ==> PairedAt(s'.hist, id, s'.reqs[id])
    ensures Inv(s', Closed)
  {
    Unfold(s, Closed);
    FlagsQueues(s, s');
    FlagsPaired(s, s');
    FlagsTimed(s, s', Closed);
    FlagsIds(s, s');
  }

  lemma FlagsQueues(s: State, s': State)
    requires Queues(s, Closed) && QuietHistory(s, s'.hist)
    requires s'.clients == s.clients && s'.reqs.Keys == s.reqs.Keys
    requires forall id :: id in s.reqs ==> Keeps(s.reqs[id], s'.reqs[id], Closed)
    ensures Queues(s', Closed)
  {
    forall c | c in s.clients ensures QueueOk(s'.reqs, s'.hist, s.clients[c], Closed) {
      assert QueueOk(s.reqs, s.hist, s.clients[c], Closed);
      QueueFlags(s.reqs, s.hist, s.clients[c], Closed, s'.reqs, s'.hist, Closed);
    }
  }

  lemma FlagsPaired(s: State, s': State)
    requires Paired(s) && QuietHistory(s, s'.hist)
    requires forall id :: id in s.reqs ==> id in s'.reqs
    requires forall id :: id in s'.reqs ==> PairedAt(s'.hist, id, s'.reqs[id])
    ensures Paired(s')
  {
    forall x | x in s'.hist.replies ensures ReplyFits(s'.hist, x, s'.hist.replies[x]) {
      ReplyStillFits(s.hist, s'.hist, x, s.hist.replies[x]);
    }
  }

  lemma ReplyStillFits(h: History, h': History, x: MsgId, r: Reply)
    requires ReplyFits(h, x, r) && h'.vectors == h.vectors && h'.local == h.local
    requires x in h.coalesced ==> x in h'.coalesced
    requires forall y :: y in h.answers ==> y in h'.answers && h'.answers[y] == h.answers[y]
    ensures ReplyFits(h', x, r)
  {
    if r.Coalesced? {
      forall i | 0 <= i < |r.parts|
        ensures h'.vectors[x][i] in h'.answers && r.parts[i] == Some(h'.answers[h'.vectors[x][i]])
      {
        var y := h.vectors[x][i];
        assert y in h.answers && r.parts[i] == Some(h.answers[y]);
      }
    }
  }

  lemma FlagsTimed(s: State, s': State, open: Open)
    requires Timed(s) && s'.timers == s.timers && s'.timeout == s.timeout
    requires s'.reqs.Keys == s.reqs.Keys && s'.hist.wire.Keys <= s.hist.wire.Keys
    requires forall id :: id in s.reqs ==> Keeps(s.reqs[id], s'.reqs[id], open)
    ensures Timed(s')
  {
    forall t | t in s'.timers ensures TimerOk(s'.reqs, t) { assert TimerOk(s.reqs, t); }
  }

  lemma FlagsIds(s: State, s': State)
    requires Ids(s) && Logged(s) && Links(s)
    requires s' == s.(reqs := s'.reqs, servers := s'.servers, hist := s'.hist)
    requires s'.reqs.Keys == s.reqs.Keys && QuietHistory(s, s'.hist)
    ensures Ids(s') && Logged(s')
  {
    forall x | Known(s'.hist, x) ensures 0 <= x < s'.nextId {
      if x in s.reqs { assert ReqOk(s, x, s.reqs[x]); } else { assert Known(s.hist, x); }
    }
    forall o | o in s'.hist.vectors ensures VectorKnown(s', o) { assert VectorKnown(s, o); }
    forall c | c in s'.hist.arrived ensures LoggedAt(s', c) { assert LoggedAt(s, c); }
  }

  /** v' is v with id taken out of one of its queues. */
  ghost predicate Takes(v: ServerConn, id: MsgId, v': ServerConn) {
    && InServer(v, id)
    && NoDup(v'.inq) && NoDup(v'.outq)
    && (forall x :: x in v'.inq ==> x in v.inq && x != id)
    && (forall x :: x in v'.outq ==> x in v.outq && x != id)
    && (forall x :: InServer(v, x) && x != id ==> InServer(v', x))
  }

  lemma TakeIn(v: ServerConn)
    requires NoDup(v.inq) && NoDup(v.outq) && v.inq != [] && v.inq[0] !in v.outq
    ensures Takes(v, v.inq[0], v.(inq := v.inq[1..]))
  {
    RemoveAtMembers(v.inq, 0);
    assert v.inq[1..] == RemoveAt(v.inq, 0);
  }

  lemma TakeOut(v: ServerConn)
    requires NoDup(v.inq) && NoDup(v.outq) && v.outq != [] && v.outq[0] !in v.inq
    ensures Takes(v, v.outq[0], v.(outq := v.outq[1..]))
  {
    RemoveAtMembers(v.outq, 0);
    assert v.outq[1..] == RemoveAt(v.outq, 0);
  }

  lemma TakesOk(reqs: map<MsgId, Req>, sid: ConnId, v: ServerConn, id: MsgId, v': ServerConn, reqs': map<MsgId, Req>)
    requires ServerOk(reqs, sid, v) && Takes(v, id, v')
    requires forall x :: x in reqs && x != id ==> x in reqs' && reqs'[x] == reqs[x]
    ensures ServerOk(reqs', sid, v')
  {
    forall i | 0 <= i < |v'.inq| ensures v'.inq[i] in reqs' && reqs'[v'.inq[i]].at == Some(sid) {
      var x := v'.inq[i];
      assert x in v'.inq && x in v.inq && x != id;
    }
    forall i | 0 <= i < |v'.outq|
      ensures v'.outq[i] in reqs' && reqs'[v'.outq[i]].at == Some(sid) && !reqs'[v'.outq[i]].noreply
    {
      var x := v'.outq[i];
      assert x in v'.outq && x in v.outq && x != id;
    }
  }

  /** The other server connections do not hold a request that is at sid. */
  lemma OtherServer(reqs: map<MsgId, Req>, sid: ConnId, t: ConnId, v: ServerConn, id: MsgId, reqs': map<MsgId, Req>)
    requires ServerOk(reqs, t, v) && t != sid && id in reqs && reqs[id].at == Some(sid)
    requires forall x :: x in reqs && x != id ==> x in reqs' && reqs'[x] == reqs[x]
    ensures ServerOk(reqs', t, v) && !InServer(v, id)
  {
    assert id !in v.inq && id !in v.outq;
    assert forall i :: 0 <= i < |v.inq| ==> v.inq[i] != id;
    assert forall i :: 0 <= i < |v.outq| ==> v.outq[i] != id;
  }

  ghost predicate CanTake(s: State, sid: ConnId, v: ServerConn, id: MsgId) {
    && sid in s.servers && Takes(s.servers[sid], id, v)
    && (sid in s.hist.wire ==> s.hist.wire[sid] == v.outq)
  }

  lemma CompleteLinks(s: State, sid: ConnId, v: ServerConn, id: MsgId, r: Req)
    requires Links(s.(hist := s.hist.(wire := s.hist.wire - {sid}))) && CanTake(s, sid, v, id)
    requires id in s.reqs && s.reqs[id].at == Some(sid) && !s.reqs[id].swallow && !s.reqs[id].noreply
    requires r.client == s.reqs[id].client && !r.swallow && !r.noreply && r.fragId == s.reqs[id].fragId
    requires r.off == s.reqs[id].off
    ensures Links(Complete(s, sid, v, id, r))
  {
    var s' := Complete(s, sid, v, id, r);
    forall c | c in s'.clients ensures ClientOk(s'.reqs, c, s'.clients[c]) {
      assert ClientOk(s.reqs, c, s.clients[c]);
    }
    forall t | t in s'.servers ensures ServerOk(s'.reqs, t, s'.servers[t]) {
      assert ServerOk(s.reqs, t, s.servers[t]);
      if t == sid { TakesOk(s.reqs, sid, s.servers[sid], id, v, s'.reqs); }
      else { OtherServer(s.reqs, sid, t, s.servers[t], id, s'.reqs); }
    }
    var s0 := s.(hist := s.hist.(wire := s.hist.wire - {sid}));
    forall x | x in s'.reqs ensures ReqOk(s', x, s'.reqs[x]) { assert ReqOk(s0, x, s.reqs[x]); }
    forall t | t in s'.servers && t in s'.hist.wire ensures s'.hist.wire[t] == s'.servers[t].outq {
      if t != sid { assert s0.hist.wire[t] == s.servers[t].outq; }
    }
  }

  lemma DiscardLinks(s: State, sid: ConnId, v: ServerConn, id: MsgId)
    requires Links(s.(hist := s.hist.(wire := s.hist.wire - {sid}))) && CanTake(s, sid, v, id)
    requires id in s.reqs && s.reqs[id].at == Some(sid) && (s.reqs[id].swallow || s.reqs[id].noreply)
    ensures Links(Discard(s, sid, v, id))
  {
    var s' := Discard(s, sid, v, id);
    var s0 := s.(hist := s.hist.(wire := s.hist.wire - {sid}));
    forall c | c in s'.clients ensures ClientOk(s'.reqs, c, s'.clients[c]) {
      assert ClientOk(s.reqs, c, s.clients[c]);
    }
    forall t | t in s'.servers ensures ServerOk(s'.reqs, t, s'.servers[t]) {
      assert ServerOk(s.reqs, t, s.servers[t]);
      if t == sid { TakesOk(s.reqs, sid, s.servers[sid], id, v, s'.reqs); }
      else { OtherServer(s.reqs, sid, t, s.servers[t], id, s'.reqs); }
    }
    forall x | x in s'.reqs ensures ReqOk(s', x, s'.reqs[x]) { assert ReqOk(s0, x, s.reqs[x]); }
    forall t | t in s'.servers && t in s'.hist.wire ensures s'.hist.wire[t] == s'.servers[t].outq {
      if t != sid { assert s0.hist.wire[t] == s.servers[t].outq; }
    }
  }

  lemma UnwireLinks(s: State, sid: ConnId, h: History)
    requires Links(s)
    requires forall t :: t != sid && t in h.wire ==> t in s.hist.wire && h.wire[t] == s.hist.wire[t]
    ensures Links(s.(hist := h.(wire := h.wire - {sid})))
  {
    var s' := s.(hist := h.(wire := h.wire - {sid}));
    forall x | x in s'.reqs ensures ReqOk(s', x, s'.reqs[x]) { assert ReqOk(s, x, s.reqs[x]); }
  }

  /** A request that expects a reply and is not done stands unmarked in its client's queue. */
  lemma InQueue(s: State, id: MsgId)
    requires Links(s) && Queues(s, Closed) && id in s.reqs && !s.reqs[id].swallow && !s.reqs[id].noreply
    requires s.reqs[id].at.Some?
    ensures !s.reqs[id].done && !s.reqs[id].error && !s.reqs[id].ferror && InClient(s, s.reqs[id], id)
  {
    assert ReqOk(s, id, s.reqs[id]);
    var q := s.clients[s.reqs[id].client];
    var i :| 0 <= i < |q| && q[i] == id;
    assert MemberOk(s.reqs, s.hist, q, q[i], Closed);
  }

  /** A request that reached a server connection is answered, or fails. */
  lemma InvComplete(s: State, sid: ConnId, v: ServerConn, id: MsgId, r: Req, h: History)
    requires Inv(s, Closed) && QuietHistory(s, h)
    requires CanTake(s.(hist := h), sid, v, id)
    requires forall t :: t != sid && t in h.wire ==> t in s.hist.wire && h.wire[t] == s.hist.wire[t]
    requires forall x :: x in h.answers && x != id ==> x in s.hist.answers
    requires id in s.reqs && s.reqs[id].at == Some(sid) && !s.reqs[id].swallow && !s.reqs[id].noreply
    requires r == s.reqs[id].(error := r.error, err := r.err, peer := r.peer)
    requires PairedAt(h, id, r.(done := true))
    requires !(r.peer.Some? && r.peer.value.Coalesced?)
    ensures Inv(Complete(s.(hist := h), sid, v, id, r), Closed)
  {
    Unfold(s, Closed);
    var s0 := s.(hist := h);
    var s' := Complete(s0, sid, v, id, r);
    InQueue(s, id);
    UnwireLinks(s, sid, h);
    CompleteLinks(s0, sid, v, id, r);
    CompleteKeeps(s, sid, v, id, r, h);
    InvFlags(s, s');
  }

  lemma CompleteKeeps(s: State, sid: ConnId, v: ServerConn, id: MsgId, r: Req, h: History)
    requires Paired(s) && id in s.reqs && !s.reqs[id].done && !s.reqs[id].error && !s.reqs[id].ferror
    requires forall x :: x in s.hist.answers ==> x in h.answers && h.answers[x] == s.hist.answers[x]
    requires forall x :: x in h.answers && x != id ==> x in s.hist.answers
    requires h.parts == s.hist.parts && h.local == s.hist.local && h.vectors == s.hist.vectors
    requires h.stuck == s.hist.stuck
    requires r == s.reqs[id].(error := r.error, err := r.err, peer := r.peer)
    requires PairedAt(h, id, r.(done := true)) && !(r.peer.Some? && r.peer.value.Coalesced?)
    ensures var s' := Complete(s.(hist := h), sid, v, id, r);
      forall x :: x in s.reqs ==> Keeps(s.reqs[x], s'.reqs[x], Closed) && PairedAt(h, x, s'.reqs[x])
  {
    var s' := Complete(s.(hist := h), sid, v, id, r);
    forall x | x in s.reqs ensures Keeps(s.reqs[x], s'.reqs[x], Closed) && PairedAt(h, x, s'.reqs[x]) {
      assert PairedAt(s.hist, x, s.reqs[x]);
    }
  }

  /** A request whose answer nobody waits for is recycled. */
  lemma InvDiscard(s: State, sid: ConnId, v: ServerConn, id: MsgId, h: History)
    requires Inv(s, Closed) && QuietHistory(s, h)
    requires CanTake(s.(hist := h), sid, v, id)
    requires forall t :: t != sid && t in h.wire ==> t in s.hist.wire && h.wire[t] == s.hist.wire[t]
    requires forall x :: x in h.answers && x != id ==> x in s.hist.answers
    requires id in s.reqs && s.reqs[id].at == Some(sid) && (s.reqs[id].swallow || s.reqs[id].noreply)
    ensures Inv(Discard(s.(hist := h), sid, v, id), Closed)
  {
    Unfold(s, Closed);
    var s0 := s.(hist := h);
    var s' := Discard(s0, sid, v, id);
    UnwireLinks(s, sid, h);
    DiscardLinks(s0, sid, v, id);
    DiscardQueues(s, id, s');
    DiscardPaired(s, id, s');
    PutTimed(s, s', id);
    PutIds(s, s', id);
    DiscardLogged(s, s');
  }

  lemma DiscardQueues(s: State, id: MsgId, s': State)
    requires Links(s) && Queues(s, Closed) && id in s.reqs && (s.reqs[id].swallow || s.reqs[id].noreply)
    requires s'.reqs == s.reqs - {id} && s'.clients == s.clients
    requires forall q :: SameHistory(s.hist, s'.hist, q)
    ensures Queues(s', Closed)
  {
    forall c | c in s.clients ensures QueueOk(s'.reqs, s'.hist, s.clients[c], Closed) {
      var q := s.clients[c];
      assert ClientOk(s.reqs, c, q) && QueueOk(s.reqs, s.hist, q, Closed);
      assert forall i :: 0 <= i < |q| ==> q[i] != id;
      QueueFlags(s.reqs, s.hist, q, Closed, s'.reqs, s'.hist, Closed);
    }
  }

  lemma DiscardPaired(s: State, id: MsgId, s': State)
    requires Paired(s) && s'.reqs == s.reqs - {id} && id in s.reqs
    requires s'.hist == s.hist.(wire := s'.hist.wire, answers := s'.hist.answers, freed := s'.hist.freed)
    requires forall x :: x in s.hist.answers ==> x in s'.hist.answers && s'.hist.answers[x] == s.hist.answers[x]
    requires forall x :: x in s'.hist.answers && x != id ==> x in s.hist.answers
    ensures Paired(s')
  {
    forall x | x in s'.reqs ensures PairedAt(s'.hist, x, s'.reqs[x]) {
      assert PairedAt(s.hist, x, s.reqs[x]);
    }
    forall x | x in s'.hist.replies ensures ReplyFits(s'.hist, x, s'.hist.replies[x]) {
      ReplyStillFits(s.hist, s'.hist, x, s.hist.replies[x]);
    }
  }

  lemma DiscardLogged(s: State, s': State)
    requires Logged(s) && s'.clients == s.clients && s'.nextId == s.nextId
    requires s'.hist == s.hist.(wire := s'.hist.wire, answers := s'.hist.answers, freed := s'.hist.freed)
    ensures Logged(s')
  {
    forall c | c in s'.hist.arrived ensures LoggedAt(s', c) { assert LoggedAt(s, c); }
  }

  lemma PutTimed(s: State, s': State, id: MsgId)
    requires Timed(s) && s'.timers == Cancel(s.timers, id) && s'.timeout == s.timeout
    requires s'.reqs == s.reqs - {id} && s'.hist.wire.Keys <= s.hist.wire.Keys
    ensures Timed(s')
  {
    CancelOk(s.timers, id);
    forall t | t in s'.timers ensures TimerOk(s'.reqs, t) { assert TimerOk(s.reqs, t); }
    if s.timeout > 0 {
      forall x | x in s'.reqs && Waits(s', s'.reqs[x]) ensures Armed(s'.timers, x) {
        assert Armed(s.timers, x);
        var t :| t in s.timers && t.id == x;
        assert t in s'.timers;
      }
    }
  }

  lemma PutIds(s: State, s': State, id: MsgId)
    requires Ids(s) && Links(s) && id in s.reqs && s'.reqs == s.reqs - {id}
    requires s'.nextId == s.nextId && s'.nextFrag == s.nextFrag
    requires s'.hist.vectors == s.hist.vectors && s'.hist.coalesced == s.hist.coalesced
    requires s'.hist.freed == s.hist.freed + [id] && s'.hist.dropped + s'.hist.empty <= s'.hist.parts
    requires forall x :: Known(s'.hist, x) ==> Known(s.hist, x) || x in s.reqs
    requires forall x :: x in s'.hist.replies ==> x in s.hist.replies || x == id
    ensures Ids(s')
  {
    forall x | Known(s'.hist, x) ensures 0 <= x < s'.nextId {
      if x in s.reqs { assert ReqOk(s, x, s.reqs[x]); } else { assert Known(s.hist, x); }
    }
    forall o | o in s'.hist.vectors ensures VectorKnown(s', o) { assert VectorKnown(s, o); }
  }

  // ---------- Unlinking from a client queue ----------

  /** The history after the request at the head or in the middle of a queue is unlinked. */
  ghost predicate Unlinks(s: State, c: ConnId, k: nat, h': History)
    requires c in s.clients && k < |s.clients[c]| && s.clients[c][k] in s.reqs
  {
    var h, id := s.hist, s.clients[c][k];
    && h' == h.(freed := h.freed + [id], empty := h'.empty, dropped := h'.dropped, sent := h'.sent,
                replies := h'.replies)
    && ( || (h'.empty == h.empty + {id} && h'.dropped == h.dropped && h'.sent == h.sent && h'.replies == h.replies
             && id in h.parts)
         || (h'.empty == h.empty && h'.dropped == h.dropped + {id} && h'.sent == h.sent && h'.replies == h.replies
             && id in h.parts)
         || (h'.empty == h.empty && h'.dropped == h.dropped && k == 0 && c in h.sent && s.reqs[id].peer.Some?
             && h'.sent == h.sent[c := h.sent[c] + [id]] && h'.replies == h.replies[id := s.reqs[id].peer.value]
             && ReplyFits(h, id, s.reqs[id].peer.value)))
  }

  lemma InvUnlink(s: State, c: ConnId, k: nat, s': State)
    requires Inv(s, Closed) && c in s.clients && k < |s.clients[c]| && s.clients[c][k] in s.reqs
    requires s.reqs[s.clients[c][k]].done && Live(s.reqs, s.clients[c]) && Removable(s.reqs, s.hist, s.clients[c], k)
    requires Unlinks(s, c, k, s'.hist)
    requires s' == s.(reqs := s.reqs - {s.clients[c][k]}, timers := Cancel(s.timers, s.clients[c][k]),
                      clients := s.clients[c := RemoveAt(s.clients[c], k)], hist := s'.hist)
    ensures Inv(s', Closed)
  {
    Unfold(s, Closed);
    var id := s.clients[c][k];
    UnlinkLinks(s, c, k, s');
    UnlinkQueues(s, c, k, s');
    forall x | x in s'.reqs ensures PairedAt(s'.hist, x, s'.reqs[x]) {
      assert PairedAt(s.hist, x, s.reqs[x]);
    }
    forall x | x in s'.hist.replies ensures ReplyFits(s'.hist, x, s'.hist.replies[x]) {
      ReplyStillFits(s.hist, s'.hist, x, s'.hist.replies[x]);
    }
    PutTimed(s, s', id);
    PutIds(s, s', id);
    UnlinkLogged(s, c, k, s');
  }

  lemma UnlinkLinks(s: State, c: ConnId, k: nat, s': State)
    requires Links(s) && c in s.clients && k < |s.clients[c]|
    requires s.clients[c][k] in s.reqs && s.reqs[s.clients[c][k]].done
    requires s'.reqs == s.reqs - {s.clients[c][k]} && s'.servers == s.servers && s'.hist.wire == s.hist.wire
    requires s'.clients == s.clients[c := RemoveAt(s.clients[c], k)]
    requires s'.nextId == s.nextId && s'.nextFrag == s.nextFrag
    ensures Links(s')
  {
    var id, q := s.clients[c][k], s.clients[c];
    assert ClientOk(s.reqs, c, q);
    RemoveAtMembers(q, k);
    forall d | d in s'.clients ensures ClientOk(s'.reqs, d, s'.clients[d]) {
      assert ClientOk(s.reqs, d, s.clients[d]);
      if d != c {
        forall i | 0 <= i < |s.clients[d]| ensures s.clients[d][i] != id {}
      } else {
        forall i | 0 <= i < |s'.clients[c]| ensures s'.clients[c][i] != id {
          assert s'.clients[c][i] in s'.clients[c];
        }
      }
    }
    assert ReqOk(s, id, s.reqs[id]);
    forall t | t in s'.servers ensures ServerOk(s'.reqs, t, s'.servers[t]) {
      var v := s.servers[t];
      assert ServerOk(s.reqs, t, v);
      assert forall i :: 0 <= i < |v.inq| ==> v.inq[i] != id;
      assert forall i :: 0 <= i < |v.outq| ==> v.outq[i] != id;
    }
    forall x | x in s'.reqs ensures ReqOk(s', x, s'.reqs[x]) { assert ReqOk(s, x, s.reqs[x]); }
  }

  lemma UnlinkQueues(s: State, c: ConnId, k: nat, s': State)
    requires Links(s) && Queues(s, Closed) && c in s.clients && k < |s.clients[c]|
    requires s.clients[c][k] in s.reqs && Live(s.reqs, s.clients[c]) && Removable(s.reqs, s.hist, s.clients[c], k)
    requires s'.reqs == s.reqs - {s.clients[c][k]} && s'.clients == s.clients[c := RemoveAt(s.clients[c], k)]
    requires s'.hist.parts == s.hist.parts && s'.hist.vectors == s.hist.vectors
    requires s'.hist.coalesced == s.hist.coalesced && s'.hist.answers == s.hist.answers
    ensures Queues(s', Closed)
  {
    var q := s.clients[c];
    assert ClientOk(s.reqs, c, q);
    forall d | d in s'.clients ensures QueueOk(s'.reqs, s'.hist, s'.clients[d], Closed) {
      if d == c {
        QueueRemove(s.reqs, s.hist, q, k, s'.hist);
      } else {
        assert s.reqs[q[k]].client == c;
        OtherQueues(s, s', c, Closed, Closed, d);
      }
    }
  }

  lemma UnlinkLogged(s: State, c: ConnId, k: nat, s': State)
    requires Logged(s) && c in s.clients && k < |s.clients[c]| && s.clients[c][k] in s.reqs
    requires Unlinks(s, c, k, s'.hist) && s'.nextId == s.nextId
    requires s'.clients == s.clients[c := RemoveAt(s.clients[c], k)]
    ensures Logged(s')
  {
    forall d | d in s'.hist.arrived ensures LoggedAt(s', d) {
      if d == c { UnlinkLoggedHere(s, c, k, s'); } else { UnlinkLoggedElsewhere(s, c, k, s', d); }
    }
    forall d, e | d in s'.hist.arrived && e in s'.hist.arrived && d != e
      ensures Apart(s'.hist.arrived[d], s'.hist.arrived[e])
    {
      assert Apart(s.hist.arrived[d], s.hist.arrived[e]);
    }
  }

  lemma UnlinkLoggedHere(s: State, c: ConnId, k: nat, s': State)
    requires c in s.clients && k < |s.clients[c]| && s.clients[c][k] in s.reqs
    requires c in s.hist.arrived && LoggedAt(s, c)
    requires Unlinks(s, c, k, s'.hist) && s'.nextId == s.nextId
    requires s'.clients == s.clients[c := RemoveAt(s.clients[c], k)]
    ensures LoggedAt(s', c)
  {
    var h, h', id := s.hist, s'.hist, s.clients[c][k];
    var gone, gone' := h.empty + h.dropped, h'.empty + h'.dropped;
    if h'.sent == h.sent {
      assert gone' == gone + {id};
      LogUnlink(h.arrived[c], h.sent[c], s.clients[c], gone, s.nextId, k);
    } else {
      assert gone' == gone;
      assert h.sent[c] + s.clients[c] == h.sent[c] + [id] + RemoveAt(s.clients[c], k);
    }
  }

  lemma UnlinkLoggedElsewhere(s: State, c: ConnId, k: nat, s': State, d: ConnId)
    requires c in s.clients && k < |s.clients[c]| && s.clients[c][k] in s.reqs && d != c
    requires c in s.hist.arrived && LoggedAt(s, c) && d in s.hist.arrived && LoggedAt(s, d)
    requires Apart(s.hist.arrived[c], s.hist.arrived[d])
    requires Unlinks(s, c, k, s'.hist) && s'.nextId == s.nextId
    requires s'.clients == s.clients[c := RemoveAt(s.clients[c], k)]
    ensures LoggedAt(s', d)
  {
    var h, h', id := s.hist, s'.hist, s.clients[c][k];
    assert id in h.sent[c] + s.clients[c];
    assert id in h.arrived[c] && id !in h.arrived[d];
    WithoutAgree(h.arrived[d], h.empty + h.dropped, h'.empty + h'.dropped);
  }

  lemma LogUnlink(arrived: seq<MsgId>, sent: seq<MsgId>, q: seq<MsgId>, gone: set<MsgId>, nextId: MsgId, k: nat)
    requires ClientLog(arrived, sent, Some(q), gone, nextId) && k < |q|
    ensures ClientLog(arrived, sent, Some(RemoveAt(q, k)), gone + {q[k]}, nextId)
  {
    WithoutNoDup(arrived, gone);
    WithoutOneMore(arrived, gone, |sent| + k);
    assert RemoveAt(sent + q, |sent| + k) == sent + RemoveAt(q, k);
  }

  // ---------- Latching ----------

  ghost predicate CanLatch(s: State, c: ConnId, o: MsgId, open: Open) {
    && c in s.clients && o in s.clients[c] && o in s.reqs
    && Unlatched(s.reqs[o]) && o !in s.hist.parts && o in s.hist.vectors
    && Live(s.reqs, s.clients[c]) && AllDone(s.reqs, s.clients[c], s.reqs[o].fragId)
    && !(open.Opened? && open.owner == o)
  }

  lemma LatchedReq(s: State, c: ConnId, o: MsgId, x: MsgId)
    requires Links(s) && CanLatch(s, c, o, Closed) && x in s.reqs
    ensures var s' := Latch(s, s.clients[c], s.reqs[o].fragId, o);
      && x in s'.reqs
      && s'.reqs[x] == s.reqs[x].(fdone := s'.reqs[x].fdone, peer := s'.reqs[x].peer)
      && (s.reqs[x].client != c ==> s'.reqs[x] == s.reqs[x])
      && (x != o ==> s'.reqs[x].peer == s.reqs[x].peer)
      && (s.reqs[x].fdone ==> s'.reqs[x].fdone)
  {
    assert ClientOk(s.reqs, c, s.clients[c]);
  }

  /** All members of a vector are done: its owner gets the reply put together from them. */
  lemma InvLatch(s: State, c: ConnId, o: MsgId, open: Open)
    requires Inv(s, open) && CanLatch(s, c, o, open)
    ensures Inv(Latch(s, s.clients[c], s.reqs[o].fragId, o), open)
    ensures forall x :: x in s.clients[c] && x in s.reqs && s.reqs[x].fragId == s.reqs[o].fragId ==>
      var s' := Latch(s, s.clients[c], s.reqs[o].fragId, o); s'.reqs[x].done == s.reqs[x].done && s'.reqs[x].fdone
  {
    Unfold(s, open);
    var s' := Latch(s, s.clients[c], s.reqs[o].fragId, o);
    assert ClientOk(s.reqs, c, s.clients[c]);
    assert s.reqs[o].client == c;
    LatchPlaces(s, c, o);
    LatchLinks(s, s');
    LatchQueues(s, c, o, open);
    LatchPaired(s, c, o, open);
    LatchTimed(s, s');
    LatchIds(s, c, o, open);
    LatchLogged(s, s');
  }

  lemma LatchPlaces(s: State, c: ConnId, o: MsgId)
    requires Links(s) && CanLatch(s, c, o, Closed)
    ensures var s' := Latch(s, s.clients[c], s.reqs[o].fragId, o);
      s'.reqs.Keys == s.reqs.Keys && forall x :: x in s.reqs ==> SamePlace(s.reqs[x], s'.reqs[x])
  {
    var s' := Latch(s, s.clients[c], s.reqs[o].fragId, o);
    forall x | x in s.reqs ensures SamePlace(s.reqs[x], s'.reqs[x]) { LatchedReq(s, c, o, x); }
  }

  lemma LatchTimed(s: State, s': State)
    requires Timed(s) && s'.timers == s.timers && s'.timeout == s.timeout && s'.reqs.Keys == s.reqs.Keys
    requires s'.hist.wire == s.hist.wire
    requires forall x :: x in s.reqs ==> SamePlace(s.reqs[x], s'.reqs[x])
    ensures Timed(s')
  {
    forall t | t in s'.timers ensures TimerOk(s'.reqs, t) { assert TimerOk(s.reqs, t); }
  }

  lemma LatchLogged(s: State, s': State)
    requires Logged(s) && s'.clients == s.clients && s'.nextId == s.nextId
    requires s'.hist == s.hist.(coalesced := s'.hist.coalesced)
    ensures Logged(s')
  {
    forall d | d in s'.hist.arrived ensures LoggedAt(s', d) { assert LoggedAt(s, d); }
  }

  lemma LatchLinks(s: State, s': State)
    requires Links(s) && s'.reqs.Keys == s.reqs.Keys
    requires s'.clients == s.clients && s'.servers == s.servers && s'.hist.wire == s.hist.wire
    requires s'.nextId == s.nextId && s'.nextFrag == s.nextFrag
    requires forall x :: x in s.reqs ==> SamePlace(s.reqs[x], s'.reqs[x])
    ensures Links(s')
  {
    forall d | d in s'.clients ensures ClientOk(s'.reqs, d, s'.clients[d]) {
      var q := s.clients[d];
      assert ClientOk(s.reqs, d, q);
      forall i | 0 <= i < |q| ensures q[i] in s'.reqs && SamePlace(s.reqs[q[i]], s'.reqs[q[i]]) {
        var x := q[i];
        assert x in s.reqs;
      }
    }
    forall t | t in s'.servers ensures ServerOk(s'.reqs, t, s'.servers[t]) {
      var v := s.servers[t];
      assert ServerOk(s.reqs, t, v);
      forall i | 0 <= i < |v.inq| ensures v.inq[i] in s'.reqs && SamePlace(s.reqs[v.inq[i]], s'.reqs[v.inq[i]]) {
        var x := v.inq[i];
        assert x in s.reqs;
      }
      forall i | 0 <= i < |v.outq| ensures v.outq[i] in s'.reqs && SamePlace(s.reqs[v.outq[i]], s'.reqs[v.outq[i]]) {
        var x := v.outq[i];
        assert x in s.reqs;
      }
    }
    forall x | x in s'.reqs ensures ReqOk(s', x, s'.reqs[x]) { assert ReqOk(s, x, s.reqs[x]); }
  }

  ghost predicate SamePlace(r: Req, r': Req) {
    && r'.client == r.client && r'.noreply == r.noreply && r'.swallow == r.swallow
    && r'.done == r.done && r'.error == r.error && r'.at == r.at && r'.fragId == r.fragId
    && (r'.off == r.off || r'.off == 0)
  }

  lemma LatchQueues(s: State, c: ConnId, o: MsgId, open: Open)
    requires OpenOk(s, open) && Links(s) && Queues(s, open) && Paired(s) && CanLatch(s, c, o, open)
    ensures Queues(Latch(s, s.clients[c], s.reqs[o].fragId, o), open)
  {
    var s', q := Latch(s, s.clients[c], s.reqs[o].fragId, o), s.clients[c];
    forall d | d in s'.clients ensures QueueOk(s'.reqs, s'.hist, s'.clients[d], open) {
      assert ClientOk(s.reqs, c, q);
      if d == c {
        forall i | 0 <= i < |q| ensures Answered(s.reqs, s.hist, q[i]) {
          assert PairedAt(s.hist, q[i], s.reqs[q[i]]);
        }
        QueueLatch(s.reqs, s.hist, q, o, s'.reqs, s'.hist, open);
      } else {
        forall x | x in s.reqs && s.reqs[x].client != c ensures x in s'.reqs && s'.reqs[x] == s.reqs[x] {
          LatchedReq(s, c, o, x);
        }
        assert s.reqs[o].client == c;
        OtherQueues(s, s', c, open, open, d);
      }
    }
  }

  lemma LatchPaired(s: State, c: ConnId, o: MsgId, open: Open)
    requires Links(s) && Queues(s, open) && Paired(s) && CanLatch(s, c, o, open)
    ensures Paired(Latch(s, s.clients[c], s.reqs[o].fragId, o))
  {
    var s', q := Latch(s, s.clients[c], s.reqs[o].fragId, o), s.clients[c];
    var p :| 0 <= p < |q| && q[p] == o;
    assert MemberOk(s.reqs, s.hist, q, q[p], open);
    forall x | x in s'.reqs ensures PairedAt(s'.hist, x, s'.reqs[x]) {
      assert PairedAt(s.hist, x, s.reqs[x]);
      LatchedReq(s, c, o, x);
      if x != o && x in q && s.reqs[x].fragId == s.reqs[o].fragId {
        MembersAre(s.reqs, s.hist, q, o, x, open);
        assert PartOf(s.reqs, s.hist, q, o, s.reqs[o].fragId, x);
      }
    }
    forall x | x in s'.hist.replies ensures ReplyFits(s'.hist, x, s'.hist.replies[x]) {
      ReplyStillFits(s.hist, s'.hist, x, s.hist.replies[x]);
    }
  }

  lemma LatchIds(s: State, c: ConnId, o: MsgId, open: Open)
    requires Links(s) && Queues(s, open) && Ids(s) && CanLatch(s, c, o, open)
    ensures Ids(Latch(s, s.clients[c], s.reqs[o].fragId, o))
  {
    var s', q := Latch(s, s.clients[c], s.reqs[o].fragId, o), s.clients[c];
    var p :| 0 <= p < |q| && q[p] == o;
    assert MemberOk(s.reqs, s.hist, q, q[p], open);
    assert ReqOk(s, o, s.reqs[o]);
    forall x | Known(s'.hist, x) ensures 0 <= x < s'.nextId {
      if x != o { assert Known(s.hist, x); }
    }
    forall v | v in s'.hist.vectors ensures VectorKnown(s', v) { assert VectorKnown(s, v); }
  }

  // ---------- Single flags ----------

  /** One request's count of done fragments or its reply changes. */
  lemma InvOne(s: State, id: MsgId, r: Req)
    requires Inv(s, Closed) && id in s.reqs
    requires SamePlace(s.reqs[id], r) && FlagStep(s.reqs[id], r, Closed) && PairedAt(s.hist, id, r)
    requires r.ferror == s.reqs[id].ferror
    ensures Inv(s.(reqs := s.reqs[id := r]), Closed)
  {
    Unfold(s, Closed);
    var s' := s.(reqs := s.reqs[id := r]);
    OneKeeps(s, id, r);
    LatchLinks(s, s');
    InvFlags(s, s');
  }

  lemma OneKeeps(s: State, id: MsgId, r: Req)
    requires Paired(s) && id in s.reqs
    requires SamePlace(s.reqs[id], r) && FlagStep(s.reqs[id], r, Closed) && PairedAt(s.hist, id, r)
    requires r.ferror == s.reqs[id].ferror
    ensures forall x :: x in s.reqs ==>
      && SamePlace(s.reqs[x], s.reqs[id := r][x])
      && Keeps(s.reqs[x], s.reqs[id := r][x], Closed)
      && PairedAt(s.hist, x, s.reqs[id := r][x])
  {
  }

  /** A reply starts over. */
  lemma InvRestart(s: State, id: MsgId)
    requires Inv(s, Closed) && id in s.reqs
    ensures Inv(SetOff(s, id, 0), Closed)
  {
    OffPaired(s, id, 0);
    InvOne(s, id, s.reqs[id].(off := 0));
  }

  lemma OffPaired(s: State, id: MsgId, n: nat)
    requires Inv(s, Closed) && id in s.reqs
    ensures PairedAt(s.hist, id, s.reqs[id].(off := n))
  {
    Unfold(s, Closed);
    assert PairedAt(s.hist, id, s.reqs[id]);
  }

  /** Bytes of the first reply of a queue are written. */
  lemma InvProgress(s: State, c: ConnId, n: nat)
    requires Inv(s, Closed) && c in s.clients && s.clients[c] != [] && s.clients[c][0] in s.reqs
    ensures Inv(SetOff(s, s.clients[c][0], n), Closed)
  {
    var id := s.clients[c][0];
    var s' := SetOff(s, id, n);
    OffPaired(s, id, n);
    Unfold(s, Closed);
    OffKeeps(s, id, n);
    ProgressLinks(s, c, n);
    InvFlags(s, s');
  }

  lemma OffKeeps(s: State, id: MsgId, n: nat)
    requires Paired(s) && id in s.reqs && PairedAt(s.hist, id, s.reqs[id].(off := n))
    ensures var s' := SetOff(s, id, n);
      forall x :: x in s.reqs ==> Keeps(s.reqs[x], s'.reqs[x], Closed) && PairedAt(s.hist, x, s'.reqs[x])
  {
  }

  lemma ProgressLinks(s: State, c: ConnId, n: nat)
    requires Links(s) && c in s.clients && s.clients[c] != [] && s.clients[c][0] in s.reqs
    ensures Links(SetOff(s, s.clients[c][0], n))
  {
    var id := s.clients[c][0];
    var s' := SetOff(s, id, n);
    assert ClientOk(s.reqs, c, s.clients[c]);
    forall d | d in s'.clients ensures ClientOk(s'.reqs, d, s'.clients[d]) { assert ClientOk(s.reqs, d, s.clients[d]); }
    forall sid | sid in s'.servers ensures ServerOk(s'.reqs, sid, s'.servers[sid]) {
      assert ServerOk(s.reqs, sid, s.servers[sid]);
    }
    forall x | x in s'.reqs ensures ReqOk(s', x, s'.reqs[x]) { assert ReqOk(s, x, s.reqs[x]); }
  }

  /** A live vector owner counts one more fragment. */
  lemma InvBump(s: State, o: MsgId)
    requires Inv(s, Closed) && o in s.reqs
    ensures Inv(Bump(s, o), Closed)
  {
    Unfold(s, Closed);
    var r' := BumpOne(s.hist, o, s.reqs[o]);
    InvOne(s, o, r');
    assert Bump(s, o) == s.(reqs := s.reqs[o := r']);
  }

  lemma BumpOne(h: History, o: MsgId, r: Req) returns (r': Req)
    requires PairedAt(h, o, r)
    ensures r' == r.(nfragDone := r.nfragDone + 1)
    ensures SamePlace(r, r') && FlagStep(r, r', Closed) && PairedAt(h, o, r')
  {
    r' := r.(nfragDone := r.nfragDone + 1);
  }

  lemma InvSetFailure(s: State, id: MsgId, err: int)
    requires Inv(s, Closed) && id in s.reqs && s.reqs[id].done && !Unlatched(s.reqs[id])
    ensures Inv(SetPeer(s, id, Failure(err)), Closed)
  {
    Unfold(s, Closed);
    assert PairedAt(s.hist, id, s.reqs[id]);
    InvOne(s, id, s.reqs[id].(peer := Some(Failure(err))));
  }

  /** The timeout of a request that is done, or whose connection is closing, is cancelled. */
  lemma InvCancel(s: State, id: MsgId)
    requires Inv(s, Closed) && id in s.reqs && !Waits(s, s.reqs[id])
    ensures Inv(s.(timers := Cancel(s.timers, id)), Closed)
  {
    Unfold(s, Closed);
    CancelTimed(s, id);
    TimersApart(s, s.(timers := Cancel(s.timers, id)));
  }

  lemma TimersApart(s: State, s': State)
    requires Links(s) && Logged(s) && Ids(s) && s' == s.(timers := s'.timers)
    ensures Links(s') && Logged(s') && Ids(s')
  {
    forall x | x in s'.reqs ensures ReqOk(s', x, s'.reqs[x]) { assert ReqOk(s, x, s.reqs[x]); }
    forall v | v in s'.hist.vectors ensures VectorKnown(s', v) { assert VectorKnown(s, v); }
    forall d | d in s'.hist.arrived ensures LoggedAt(s', d) { assert LoggedAt(s, d); }
  }

  lemma CancelTimed(s: State, id: MsgId)
    requires Timed(s) && id in s.reqs && !Waits(s, s.reqs[id])
    ensures Timed(s.(timers := Cancel(s.timers, id)))
  {
    var s' := s.(timers := Cancel(s.timers, id));
    CancelOk(s.timers, id);
    if s.timeout > 0 {
      forall x | x in s'.reqs && Waits(s', s'.reqs[x]) ensures Armed(s'.timers, x) {
        assert Armed(s.timers, x);
        var t :| t in s.timers && t.id == x;
        assert t in s'.timers;
      }
    }
  }

  /** The one member left of a failed vector is marked, so that it is found failed again. */
  lemma InvFerror(s: State, c: ConnId, id: MsgId)
    requires Inv(s, Closed) && id in s.reqs && c in s.clients && s.reqs[id].client == c
    requires s.reqs[id].fdone && s.reqs[id].peer.Some? && s.reqs[id].peer.value.Failure?
    requires Alone(s.reqs, s.clients[c], id)
    ensures Inv(s.(reqs := s.reqs[id := s.reqs[id].(ferror := true)]), Closed)
  {
    Unfold(s, Closed);
    var s' := s.(reqs := s.reqs[id := s.reqs[id].(ferror := true)]);
    LatchLinks(s, s');
    FerrorQueues(s, c, id);
    forall x | x in s'.reqs ensures PairedAt(s'.hist, x, s'.reqs[x]) { assert PairedAt(s.hist, x, s.reqs[x]); }
    LatchTimed(s, s');
    FlagsIds(s, s');
  }

  lemma FerrorQueues(s: State, c: ConnId, id: MsgId)
    requires Links(s) && Queues(s, Closed) && id in s.reqs && c in s.clients && s.reqs[id].client == c
    requires s.reqs[id].fdone && s.reqs[id].peer.Some? && s.reqs[id].peer.value.Failure?
    requires Alone(s.reqs, s.clients[c], id)
    ensures Queues(s.(reqs := s.reqs[id := s.reqs[id].(ferror := true)]), Closed)
  {
    var s' := s.(reqs := s.reqs[id := s.reqs[id].(ferror := true)]);
    forall d | d in s.clients ensures QueueOk(s'.reqs, s'.hist, s.clients[d], Closed) {
      var q := s.clients[d];
      assert ClientOk(s.reqs, d, q);
      forall i | 0 <= i < |q| ensures MayMark(s.reqs, s'.reqs, q, q[i]) {}
      QueueFlags(s.reqs, s.hist, q, Closed, s'.reqs, s'.hist, Closed);
    }
  }
}
