/** Every elementary move keeps the whole invariant. */
module PipelineMoves {
  import opened Basics
  import opened Seqs
  import opened PipelineState
  import opened PipelineInv
  import opened PipelineQueues

  // ---------- The timeout queue ----------

  lemma {:induction false} ScheduleOk(ts: seq<Timer>, t: Timer)
    requires Sorted(ts) && !Armed(ts, t.id)
    ensures Sorted(Schedule(ts, t))
    ensures forall x :: x in Schedule(ts, t) <==> x in ts || x == t
  {
    if ts != [] && ts[0].deadline <= t.deadline {
      forall x | x in ts[1..] ensures x.id != t.id { assert x in ts; }
      ScheduleOk(ts[1..], t);
      var r := Schedule(ts[1..], t);
      assert ts == [ts[0]] + ts[1..];
      assert ts[0] in ts;
      forall j | 0 <= j < |r| ensures ts[0].deadline <= r[j].deadline && ts[0].id != r[j].id {
        assert r[j] in r;
        if r[j] != t {
          var i :| 0 <= i < |ts[1..]| && ts[1..][i] == r[j];
          assert ts[i + 1] == r[j];
        }
      }
    } else {
      assert Schedule(ts, t) == [t] + ts;
      forall j | 0 <= j < |ts| ensures t.deadline <= ts[j].deadline && t.id != ts[j].id {
        assert ts[j] in ts;
        assert j > 0 ==> ts[0].deadline <= ts[j].deadline;
      }
    }
  }

  lemma {:induction false} CancelMembers(ts: seq<Timer>, id: MsgId)
    requires Sorted(ts)
    ensures forall x :: x in Cancel(ts, id) <==> x in ts && x.id != id
    ensures |Cancel(ts, id)| <= |ts|
    ensures Armed(ts, id) ==> |Cancel(ts, id)| < |ts|
  {
    if ts != [] {
      var rest := ts[1..];
      assert ts == [ts[0]] + rest;
      if ts[0].id == id {
        forall x | x in rest ensures x.id != id {
          var i :| 0 <= i < |rest| && rest[i] == x;
          assert ts[0].id != ts[i + 1].id;
        }
      } else {
        CancelMembers(rest, id);
        if Armed(ts, id) {
          var t :| t in ts && t.id == id;
          assert t in rest;
        }
      }
    }
  }

  lemma {:induction false} CancelSorted(ts: seq<Timer>, id: MsgId)
    requires Sorted(ts)
    ensures Sorted(Cancel(ts, id))
  {
    if ts != [] && ts[0].id != id {
      var rest := ts[1..];
      CancelSorted(rest, id);
      CancelMembers(rest, id);
      var r := Cancel(rest, id);
      forall j | 0 <= j < |r| ensures ts[0].deadline <= r[j].deadline && ts[0].id != r[j].id {
        assert r[j] in r && r[j] in rest;
        var i :| 0 <= i < |rest| && rest[i] == r[j];
        assert ts[i + 1] == r[j];
      }
    }
  }

  lemma CancelOk(ts: seq<Timer>, id: MsgId)
    requires Sorted(ts)
    ensures Sorted(Cancel(ts, id))
    ensures forall x :: x in Cancel(ts, id) <==> x in ts && x.id != id
    ensures |Cancel(ts, id)| <= |ts|
    ensures Armed(ts, id) ==> |Cancel(ts, id)| < |ts|
  {
    CancelMembers(ts, id);
    CancelSorted(ts, id);
  }

  // ---------- The other clients ----------

  /** Seen from any client other than c, nothing about requests changed. */
  ghost predicate Elsewhere(s: State, s': State, c: ConnId, open: Open, open': Open) {
    && (forall id :: id in s.reqs && s.reqs[id].client != c ==>
          && id in s'.reqs && s'.reqs[id] == s.reqs[id]
          && (id in s'.hist.parts <==> id in s.hist.parts)
          && (id in s'.hist.coalesced <==> id in s.hist.coalesced)
          && (id in s'.hist.vectors <==> id in s.hist.vectors)
          && (id in s.hist.vectors ==> s'.hist.vectors[id] == s.hist.vectors[id])
          && Rest(open, id) == Rest(open', id)
          && ((open'.Opened? && open'.owner == id) ==> (open.Opened? && open.owner == id)))
    && (forall x :: x in s.hist.answers ==> x in s'.hist.answers && s'.hist.answers[x] == s.hist.answers[x])
  }

  lemma OtherQueues(s: State, s': State, c: ConnId, open: Open, open': Open, d: ConnId)
    requires Links(s) && Queues(s, open) && Elsewhere(s, s', c, open, open')
    requires d != c && d in s.clients
    ensures QueueOk(s'.reqs, s'.hist, s.clients[d], open') && ClientOk(s'.reqs, d, s.clients[d])
  {
    var q := s.clients[d];
    assert ClientOk(s.reqs, d, q);
    forall i | 0 <= i < |q| ensures q[i] in s.reqs && s.reqs[q[i]].client != c {}
    QueueFlags(s.reqs, s.hist, q, open, s'.reqs, s'.hist, open');
  }

  // ---------- A new request ----------

  /** The record of a request that enters the queues is consistent. */
  ghost predicate NewOk(s: State, r: Req) {
    && (!r.noreply && !r.swallow ==> r.client in s.clients)
    && (r.at.Some? ==> r.at.value in s.servers)
    && (r.done <==> r.at.None?)
    && (r.done ==> !r.swallow && !r.noreply)
    && (r.error ==> r.done)
    && r.fragId < s.nextFrag && r.off == 0
    && (r.peer == if r.done && !r.error then Some(Local) else None)
  }

  /** It is a request of its own, the owner of a new vector, or the next fragment of the open one. */
  ghost predicate Fits(s: State, r: Req, open: Open) {
    || (IsSingle(r) && (r.noreply || r.swallow || open.Closed?))
    || (IsOwner(r, s.nextId) && open.Closed? && r.done
        && forall id :: id in s.reqs ==> s.reqs[id].fragId < r.fragId)
    || (open.Opened? && open.owner in s.reqs && !r.noreply && !r.swallow
        && r.client == s.reqs[open.owner].client && (r.done ==> r.error)
        && IsFragment(r, open.owner, s.reqs[open.owner].fragId))
  }

  function After(s: State, r: Req, open: Open): Open {
    if r.fragOwner.None? then open
    else if r.fragOwner.value == s.nextId then Opened(s.nextId, r.nfrag)
    else if open.Opened? && open.rest > 1 then Opened(open.owner, open.rest - 1)
    else Closed
  }

  lemma Fresh(s: State, open: Open)
    requires Inv(s, open)
    ensures 0 <= s.nextId && 0 < s.nextFrag && s.nextId !in s.reqs && !Known(s.hist, s.nextId)
      && !Armed(s.timers, s.nextId)
    ensures forall c :: c in s.clients ==> s.nextId !in s.clients[c]
    ensures forall sid :: sid in s.servers ==> !InServer(s.servers[sid], s.nextId)
    ensures forall o :: o in s.hist.vectors ==> s.nextId !in s.hist.vectors[o]
    ensures forall c :: c in s.hist.arrived ==> s.nextId !in s.hist.arrived[c]
  {
    Unfold(s, open);
    forall t | t in s.timers ensures t.id != s.nextId { assert TimerOk(s.reqs, t); }
    forall c | c in s.clients ensures s.nextId !in s.clients[c] {
      assert ClientOk(s.reqs, c, s.clients[c]);
    }
    forall sid | sid in s.servers ensures !InServer(s.servers[sid], s.nextId) {
      assert ServerOk(s.reqs, sid, s.servers[sid]);
    }
    forall o | o in s.hist.vectors ensures s.nextId !in s.hist.vectors[o] {
      assert VectorKnown(s, o);
    }
    forall c | c in s.hist.arrived ensures s.nextId !in s.hist.arrived[c] {
      assert LoggedAt(s, c);
    }
  }

  lemma PushOk(reqs: map<MsgId, Req>, sid: ConnId, v: ServerConn, id: MsgId, r: Req, head: bool)
    requires ServerOk(reqs, sid, v) && id !in reqs && !InServer(v, id) && r.at == Some(sid)
    ensures ServerOk(reqs[id := r], sid, Push(v, id, head))
    ensures forall x :: InServer(Push(v, id, head), x) <==> InServer(v, x) || x == id
  {
  }

  lemma AppendOk(reqs: map<MsgId, Req>, c: ConnId, q: seq<MsgId>, id: MsgId, r: Req)
    requires ClientOk(reqs, c, q) && id !in reqs && id !in q && r.client == c && !r.noreply && !r.swallow
      && r.off == 0
    ensures ClientOk(reqs[id := r], c, q + [id])
  {
  }

  lemma AddLinks(s: State, r: Req, head: bool, now: int)
    requires Links(s) && NewOk(s, r) && s.nextId !in s.reqs && 0 <= s.nextId
    requires forall c :: c in s.clients ==> s.nextId !in s.clients[c]
    requires forall sid :: sid in s.servers ==> !InServer(s.servers[sid], s.nextId)
    ensures Links(Add(s, r, head, now))
  {
    var s' := Add(s, r, head, now);
    var id := s.nextId;
    forall c | c in s'.clients ensures ClientOk(s'.reqs, c, s'.clients[c]) {
      assert ClientOk(s.reqs, c, s.clients[c]);
      if c == r.client && !r.noreply && !r.swallow { AppendOk(s.reqs, c, s.clients[c], id, r); }
    }
    forall sid | sid in s'.servers ensures ServerOk(s'.reqs, sid, s'.servers[sid]) {
      assert ServerOk(s.reqs, sid, s.servers[sid]);
      if r.at == Some(sid) { PushOk(s.reqs, sid, s.servers[sid], id, r, head); }
    }
    forall x | x in s'.reqs ensures ReqOk(s', x, s'.reqs[x]) {
      if x != id { assert ReqOk(s, x, s.reqs[x]); }
    }
    AddHistoryKeeps(s.hist, r, id);
  }

  lemma AddHistoryKeeps(h: History, r: Req, id: MsgId)
    ensures var h' := AddHistory(h, r, id);
      && h'.wire == h.wire && h'.answers == h.answers && h'.freed == h.freed && h'.coalesced == h.coalesced
      && h'.sent == h.sent && h'.replies == h.replies && h'.empty == h.empty && h'.dropped == h.dropped
  {
  }

  lemma AddQueues(s: State, r: Req, head: bool, now: int, open: Open)
    requires Inv(s, open) && NewOk(s, r) && Fits(s, r, open)
    ensures Queues(Add(s, r, head, now), After(s, r, open))
  {
    Unfold(s, open);
    var s' := Add(s, r, head, now);
    var id, open' := s.nextId, After(s, r, open);
    Fresh(s, open);
    AddHistoryKeeps(s.hist, r, id);
    forall c | c in s'.clients ensures QueueOk(s'.reqs, s'.hist, s'.clients[c], open') {
      if c == r.client && !r.noreply && !r.swallow {
        AddOwnQueue(s, r, head, now, open);
      } else {
        AddOtherQueue(s, r, open, c);
      }
    }
  }

  lemma AddOtherQueue(s: State, r: Req, open: Open, c: ConnId)
    requires Links(s) && Queues(s, open) && Fits(s, r, open) && s.nextId !in s.reqs
    requires c in s.clients && (c != r.client || r.noreply || r.swallow)
    ensures QueueOk(s.reqs[s.nextId := r], AddHistory(s.hist, r, s.nextId), s.clients[c], After(s, r, open))
  {
    var q, id := s.clients[c], s.nextId;
    assert ClientOk(s.reqs, c, q) && QueueOk(s.reqs, s.hist, q, open);
    assert id !in q;
    if r.fragOwner.Some? && r.fragOwner.value != id { NotInOther(s.reqs, c, q, open.owner); }
    AddHistoryElsewhere(s.hist, r, id, q);
    SameOpenAfter(s, r, open, q);
    SameRecords(s.reqs, q, open, id, r);
    QueueFlags(s.reqs, s.hist, q, open, s.reqs[id := r], AddHistory(s.hist, r, id), After(s, r, open));
  }

  lemma NotInOther(reqs: map<MsgId, Req>, c: ConnId, q: seq<MsgId>, o: MsgId)
    requires ClientOk(reqs, c, q) && o in reqs && reqs[o].client != c
    ensures o !in q
  {
  }

  lemma SameOpenAfter(s: State, r: Req, open: Open, q: seq<MsgId>)
    requires Fits(s, r, open) && s.nextId !in q
    requires r.fragOwner.Some? && r.fragOwner.value != s.nextId ==> open.Opened? && open.owner !in q
    ensures SameOpen(q, open, After(s, r, open))
  {
  }

  lemma SameRecords(reqs: map<MsgId, Req>, q: seq<MsgId>, open: Open, id: MsgId, r: Req)
    requires Live(reqs, q) && id !in reqs
    ensures FlagSteps(reqs, reqs[id := r], q, open)
  {
  }

  lemma AddHistoryElsewhere(h: History, r: Req, id: MsgId, q: seq<MsgId>)
    requires id !in q && (r.fragOwner.Some? ==> r.fragOwner.value !in q)
    ensures SameHistory(h, AddHistory(h, r, id), q)
  {
  }

  lemma AddOwnQueue(s: State, r: Req, head: bool, now: int, open: Open)
    requires Inv(s, open) && NewOk(s, r) && Fits(s, r, open) && !r.noreply && !r.swallow
    ensures var s' := Add(s, r, head, now); QueueOk(s'.reqs, s'.hist, s'.clients[r.client], After(s, r, open))
  {
    Unfold(s, open);
    var s' := Add(s, r, head, now);
    var id, q := s.nextId, s.clients[r.client];
    Fresh(s, open);
    assert ClientOk(s.reqs, r.client, q);
    if IsSingle(r) {
      QueueAppendSingle(s.reqs, s.hist, q, id, r, s'.hist);
    } else if r.fragOwner == Some(id) {
      QueueAppendOwner(s.reqs, s.hist, q, id, r, s'.hist);
    } else {
      AddOwnPart(s, r, head, now, open);
    }
  }

  lemma AddOwnPart(s: State, r: Req, head: bool, now: int, open: Open)
    requires Inv(s, open) && NewOk(s, r) && Fits(s, r, open) && !r.noreply && !r.swallow
    requires r.fragOwner.Some? && r.fragOwner != Some(s.nextId)
    ensures var s' := Add(s, r, head, now); QueueOk(s'.reqs, s'.hist, s'.clients[r.client], After(s, r, open))
  {
    Unfold(s, open);
    var s' := Add(s, r, head, now);
    var id, q, o := s.nextId, s.clients[r.client], open.owner;
    Fresh(s, open);
    assert ClientOk(s.reqs, r.client, q);
    var p :| 0 <= p < |q| && q[p] == o;
    assert MemberOk(s.reqs, s.hist, q, q[p], open);
    QueueAppendPart(s.reqs, s.hist, q, open, id, r, s'.hist);
    if open.rest == 1 { QueueClose(s'.reqs, s'.hist, q + [id], o); }
  }

  lemma AddTimed(s: State, r: Req, head: bool, now: int)
    requires Timed(s) && NewOk(s, r) && s.nextId !in s.reqs && !Armed(s.timers, s.nextId)
    ensures Timed(Add(s, r, head, now))
  {
    var s' := Add(s, r, head, now);
    var id := s.nextId;
    AddHistoryKeeps(s.hist, r, id);
    if r.at.Some? && !r.noreply && s.timeout > 0 {
      var t := Timer(id, r.at.value, now + s.timeout);
      ScheduleOk(s.timers, t);
      forall x | x in s'.timers ensures TimerOk(s'.reqs, x) {
        if x != t { assert TimerOk(s.reqs, x); }
      }
      forall x | x in s'.reqs && Waits(s', s'.reqs[x]) ensures Armed(s'.timers, x) {
        if x == id {
          assert t in s'.timers;
        } else {
          assert Armed(s.timers, x);
          var u :| u in s.timers && u.id == x;
          assert u in s'.timers;
        }
      }
    } else {
      forall x | x in s'.timers ensures TimerOk(s'.reqs, x) { assert TimerOk(s.reqs, x); }
    }
  }

  lemma AddPaired(s: State, r: Req, head: bool, now: int)
    requires Paired(s) && Ids(s) && NewOk(s, r) && !Known(s.hist, s.nextId)
    requires r.fragOwner.Some? && r.fragOwner.value != s.nextId ==> (r.done ==> r.error)
    requires r.fragOwner.Some? && r.fragOwner.value in s.hist.vectors ==> r.fragOwner.value !in s.hist.freed
    requires r.fragOwner == Some(s.nextId) ==> Unlatched(r) && r.done
    ensures Paired(Add(s, r, head, now))
  {
    var s' := Add(s, r, head, now);
    var id := s.nextId;
    AddHistoryKeeps(s.hist, r, id);
    forall x | x in s'.reqs ensures PairedAt(s'.hist, x, s'.reqs[x]) {
      if x != id { assert PairedAt(s.hist, x, s.reqs[x]); }
    }
    forall x | x in s'.hist.replies ensures ReplyFits(s'.hist, x, s'.hist.replies[x]) {
      assert ReplyFits(s.hist, x, s.hist.replies[x]);
      assert x in s.hist.freed;
    }
  }

  lemma AddIds(s: State, r: Req, head: bool, now: int)
    requires Ids(s) && NewOk(s, r) && s.nextId !in s.reqs && s.nextId !in s.hist.freed
    ensures Ids(Add(s, r, head, now))
  {
    var s' := Add(s, r, head, now);
    var id := s.nextId;
    AddHistoryKeeps(s.hist, r, id);
    AddKnown(s.hist, r, id);
    forall x | Known(s'.hist, x) ensures 0 <= x < s'.nextId {
      if x != id { assert Known(s.hist, x); }
    }
    forall o | o in s'.hist.vectors ensures VectorKnown(s', o) {
      if o in s.hist.vectors { assert VectorKnown(s, o); }
    }
  }

  lemma AddKnown(h: History, r: Req, id: MsgId)
    ensures var h' := AddHistory(h, r, id);
      && (forall x :: Known(h', x) ==> Known(h, x) || x == id)
      && h.parts <= h'.parts
      && (forall o :: o in h'.vectors ==>
            (o in h.vectors && (h'.vectors[o] == h.vectors[o] || h'.vectors[o] == h.vectors[o] + [id]))
            || (o == id && h'.vectors[o] == []))
  {
  }

  lemma LogAppend(arrived: seq<MsgId>, sent: seq<MsgId>, q: seq<MsgId>, gone: set<MsgId>, id: MsgId)
    requires ClientLog(arrived, sent, Some(q), gone, id) && id !in gone && 0 <= id
    ensures ClientLog(arrived + [id], sent, Some(q + [id]), gone, id + 1)
  {
    WithoutConcat(arrived, [id], gone);
    WithoutNone([id], gone);
    assert sent + q + [id] == sent + (q + [id]);
  }

  lemma AddLogged(s: State, r: Req, head: bool, now: int)
    requires Logged(s) && NewOk(s, r) && 0 <= s.nextId
    requires s.nextId !in s.hist.empty + s.hist.dropped
    requires forall c :: c in s.hist.arrived ==> s.nextId !in s.hist.arrived[c]
    ensures Logged(Add(s, r, head, now))
  {
    var s' := Add(s, r, head, now);
    var id, h := s.nextId, s.hist;
    AddHistoryKeeps(h, r, id);
    AddArrived(h, r, id);
    forall c | c in s'.hist.arrived ensures LoggedAt(s', c) {
      assert LoggedAt(s, c);
      if c == r.client && !r.noreply && !r.swallow {
        LogAppend(h.arrived[c], h.sent[c], s.clients[c], h.empty + h.dropped, id);
      }
    }
    forall c, d | c in s'.hist.arrived && d in s'.hist.arrived && c != d
      ensures Apart(s'.hist.arrived[c], s'.hist.arrived[d])
    {
      AddApart(h.arrived[c], h.arrived[d], s'.hist.arrived[c], s'.hist.arrived[d], id);
    }
  }

  lemma AddApart(a: seq<MsgId>, b: seq<MsgId>, a': seq<MsgId>, b': seq<MsgId>, id: MsgId)
    requires Apart(a, b) && id !in a && id !in b
    requires (a' == a && (b' == b || b' == b + [id])) || (b' == b && a' == a + [id])
    ensures Apart(a', b')
  {
  }

  lemma AddArrived(h: History, r: Req, id: MsgId)
    ensures AddHistory(h, r, id).arrived ==
      if r.noreply || r.swallow || r.client !in h.arrived then h.arrived
      else h.arrived[r.client := h.arrived[r.client] + [id]]
  {
  }

  lemma FitsOwner(s: State, r: Req, open: Open)
    requires Fits(s, r, open) && (open.Opened? ==> open.owner in s.reqs)
    requires forall id :: id in s.hist.freed ==> id !in s.reqs
    requires s.nextId !in s.reqs && s.nextId !in s.hist.freed
    ensures r.fragOwner.Some? && r.fragOwner.value != s.nextId ==> (r.done ==> r.error)
    ensures r.fragOwner.Some? && r.fragOwner.value in s.hist.vectors ==> r.fragOwner.value !in s.hist.freed
    ensures r.fragOwner == Some(s.nextId) ==> Unlatched(r)
  {
  }

  lemma AddOpen(s: State, r: Req, head: bool, now: int, open: Open)
    requires OpenOk(s, open) && NewOk(s, r) && Fits(s, r, open) && s.nextId !in s.reqs && s.nextId !in s.hist.parts
    ensures OpenOk(Add(s, r, head, now), After(s, r, open))
  {
  }

  /** A request enters the queues. */
  lemma InvAdd(s: State, r: Req, head: bool, now: int, open: Open)
    requires Inv(s, open) && NewOk(s, r) && Fits(s, r, open)
    ensures Inv(Add(s, r, head, now), After(s, r, open))
  {
    Fresh(s, open);
    AddQueues(s, r, head, now, open);
    AddParts(s, r, head, now, open);
  }

  lemma AddParts(s: State, r: Req, head: bool, now: int, open: Open)
    requires Inv(s, open) && NewOk(s, r) && Fits(s, r, open)
    requires Queues(Add(s, r, head, now), After(s, r, open))
    ensures Parts(Add(s, r, head, now), After(s, r, open))
  {
    Fresh(s, open);
    Unfold(s, open);
    FitsOwner(s, r, open);
    AddOpen(s, r, head, now, open);
    AddLinks(s, r, head, now);
    AddPaired(s, r, head, now);
    AddTimed(s, r, head, now);
    AddIds(s, r, head, now);
    AddLogged(s, r, head, now);
  }
}
