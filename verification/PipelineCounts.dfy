/**
  What nfrag_done counts, and what follows: a split request is answered if and only if every one of its
  fragments has found a server and is done. A fragment that req_forward_error failed is done and never
  counted, so that its vector is never answered, and nothing behind it either.
*/
module PipelineCounts {
  import opened Basics
  import opened Seqs
  import opened PipelineState
  import opened PipelineInv
  import opened PipelineQueues
  import opened PipelineMoves
  import opened PipelineFlags
  import opened PipelineConns
  import opened PipelineHandlers
  import opened PipelineServer
  import opened PipelineClient
  import opened PipelineRuns
  import opened PipelineEffects
  import opened PipelineMarks

  // ---------- The count ----------

  /** The owner of a vector that has not been answered. */
  ghost predicate Waiting(s: State, o: MsgId) {
    o in s.reqs && o in s.hist.vectors && Unlatched(s.reqs[o])
  }

  /** The fragments that are done and have been sent somewhere. */
  ghost function Counting(s: State, o: MsgId): set<MsgId>
    requires o in s.hist.vectors
  {
    set x | x in s.hist.vectors[o] && x in s.reqs && s.reqs[x].done && x !in s.hist.stuck
  }

  /** nfrag_done counts them. A vector is coalesced only if all its fragments were sent somewhere; and what
      was sent to a client is a reply. */
  ghost predicate Tally(s: State, o: MsgId) {
    && (Waiting(s, o) ==> s.reqs[o].nfragDone == |Counting(s, o)|)
    && (o in s.hist.coalesced && o in s.hist.vectors ==> AllSent(s, o))
    && (forall c :: c in s.hist.sent && o in s.hist.sent[c] ==> o in s.hist.replies)
  }

  ghost predicate AllSent(s: State, o: MsgId)
    requires o in s.hist.vectors
  {
    forall x :: x in s.hist.vectors[o] ==> x !in s.hist.stuck
  }

  lemma WaitingOwner(s: State, o: MsgId, open: Open)
    requires Inv(s, open) && Waiting(s, o)
    ensures s.reqs[o].client in s.clients && o in s.clients[s.reqs[o].client] && o !in s.hist.parts
    ensures OwnerOk(s.reqs, s.hist, s.clients[s.reqs[o].client], o, open)
  {
    Unfold(s, open);
    assert PairedAt(s.hist, o, s.reqs[o]) && ReqOk(s, o, s.reqs[o]);
    Entry(s, s.reqs[o].client, o, open);
  }

  lemma {:induction false} Elements(v: seq<MsgId>)
    requires NoDup(v)
    ensures |set x | x in v| == |v|
  {
    if v != [] {
      var k := |v| - 1;
      var front := v[..k];
      Elements(front);
      assert v == front + [v[k]];
      assert (set x | x in v) == (set x | x in front) + {v[k]};
      assert v[k] !in front;
    } else {
      assert (set x | x in v) == {};
    }
  }

  lemma Fills(a: set<MsgId>, b: set<MsgId>)
    requires a <= b && |a| >= |b|
    ensures a == b
  {
    assert b == a + (b - a);
    assert |b| == |a| + |b - a|;
  }

  /** The count is complete exactly if all fragments are done and were sent somewhere. */
  lemma CountFull(s: State, o: MsgId, open: Open)
    requires Inv(s, open) && Waiting(s, o) && Tally(s, o) && Rest(open, o) == 0
    ensures s.reqs[o].nfragDone >= s.reqs[o].nfrag <==>
      AllSent(s, o) && forall x :: x in s.hist.vectors[o] ==> x in s.reqs && s.reqs[x].done
  {
    WaitingOwner(s, o, open);
    var v := s.hist.vectors[o];
    var all := set x | x in v;
    Elements(v);
    assert Counting(s, o) <= all;
    if s.reqs[o].nfragDone >= s.reqs[o].nfrag {
      Fills(Counting(s, o), all);
      forall x | x in v ensures x !in s.hist.stuck && x in s.reqs && s.reqs[x].done { assert x in all; }
    }
    if AllSent(s, o) && forall x :: x in v ==> x in s.reqs && s.reqs[x].done {
      forall x ensures x in all <==> x in Counting(s, o) {}
      assert Counting(s, o) == all;
    }
  }

  // ---------- Steps that leave the count alone ----------

  ghost predicate Alike(r: Req, r': Req) {
    r'.done == r.done && r'.nfragDone == r.nfragDone && r'.fragId == r.fragId && (r.fdone ==> r'.fdone)
  }

  /** No request is done that was not, and nothing the count depends on is noted. */
  ghost predicate Quiet(s: State, s': State) {
    && s'.hist.vectors == s.hist.vectors && s'.hist.stuck == s.hist.stuck && s'.hist.coalesced == s.hist.coalesced
    && s'.hist.sent == s.hist.sent && s'.hist.replies == s.hist.replies
    && (forall x :: x in s'.reqs ==> x in s.reqs && Alike(s.reqs[x], s'.reqs[x]))
  }

  lemma SameCount(s: State, s': State, o: MsgId, open: Open)
    requires Inv(s', open) && Waiting(s', o) && Tally(s, o)
    requires s'.hist.vectors == s.hist.vectors && s'.hist.stuck == s.hist.stuck
    requires forall x :: x in s'.reqs ==> x in s.reqs && Alike(s.reqs[x], s'.reqs[x])
    ensures s'.reqs[o].nfragDone == |Counting(s', o)|
  {
    WaitingOwner(s', o, open);
    forall x ensures x in Counting(s', o) <==> x in Counting(s, o) {
      if x in Counting(s, o) {
        assert PartOf(s'.reqs, s'.hist, s'.clients[s'.reqs[o].client], o, s'.reqs[o].fragId, x);
      }
    }
    assert Counting(s', o) == Counting(s, o);
  }

  lemma QuietTally(s: State, s': State, o: MsgId, open: Open)
    requires Inv(s', open) && Tally(s, o) && Quiet(s, s')
    ensures Tally(s', o)
  {
    if Waiting(s', o) { SameCount(s, s', o, open); }
  }

  // ---------- req_done ----------

  lemma LatchTally(s: State, c: ConnId, p: MsgId, o: MsgId, open: Open)
    requires Inv(s, open) && CanLatch(s, c, p, open) && Tally(s, o)
    requires s.reqs[p].nfragDone >= s.reqs[p].nfrag
    requires Inv(Latch(s, s.clients[c], s.reqs[p].fragId, p), open)
    ensures Tally(Latch(s, s.clients[c], s.reqs[p].fragId, p), o)
  {
    var s' := Latch(s, s.clients[c], s.reqs[p].fragId, p);
    if o == p { CountFull(s, o, open); }
    if Waiting(s', o) { SameCount(s, s', o, open); }
  }

  /** A member of a vector that is asked about before the vector is answered is its owner. */
  ghost predicate Asked(s: State, id: MsgId) {
    id in s.reqs && (Unlatched(s.reqs[id]) ==> id !in s.hist.parts)
  }

  lemma AskedOwner(s: State, c: ConnId, id: MsgId, open: Open)
    requires Inv(s, open) && c in s.clients && id in s.clients[c] && Asked(s, id)
    ensures Live(s.reqs, s.clients[c]) && (Unlatched(s.reqs[id]) ==> s.reqs[id].fragOwner == Some(id))
  {
    Entry(s, c, id, open);
  }

  lemma DoneTally(s: State, c: ConnId, id: MsgId, o: MsgId, open: Open)
    requires Inv(s, open) && c in s.clients && id in s.clients[c] && (open.Closed? || id == s.clients[c][0])
    requires Asked(s, id) && Tally(s, o)
    ensures Tally(ReqDone(s, c, id, open).0, o)
  {
    DoneIs(s, c, id, open);
    if ReqDone(s, c, id, open).0 != s { LatchTally(s, c, id, o, open); }
  }

  /** req_done leaves everything as it is, or latches the vector that is asked about. */
  lemma DoneIs(s: State, c: ConnId, id: MsgId, open: Open)
    requires Inv(s, open) && c in s.clients && id in s.clients[c] && (open.Closed? || id == s.clients[c][0])
    requires Asked(s, id)
    ensures ReqDone(s, c, id, open).0 != s ==>
      && CanLatch(s, c, id, open) && s.reqs[id].nfragDone >= s.reqs[id].nfrag
      && ReqDone(s, c, id, open).0 == Latch(s, s.clients[c], s.reqs[id].fragId, id)
  {
    AskedOwner(s, c, id, open);
    if IsDone(s.reqs, s.clients[c], id) && Unlatched(s.reqs[id]) { OwnerOf(s, c, id, open); }
  }

  /** An unmarked fragment stands behind its owner, which is not marked either. So an unmarked member with only
      marked requests before it is an owner. */
  lemma FirstUnmarked(s: State, c: ConnId, k: nat, open: Open)
    requires Inv(s, open) && c in s.clients && k < |s.clients[c]| && Live(s.reqs, s.clients[c])
    requires forall p :: 0 <= p < k ==> !Unlatched(s.reqs[s.clients[c][p]])
    ensures Asked(s, s.clients[c][k])
  {
    var q := s.clients[c];
    assert q[k] in q;
    Entry(s, c, q[k], open);
  }

  lemma HeadAsked(s: State, c: ConnId, open: Open)
    requires Inv(s, open) && c in s.clients && s.clients[c] != []
    ensures Asked(s, s.clients[c][0])
  {
    QueueLive(s, c, open);
    FirstUnmarked(s, c, 0, open);
  }

  lemma NotifyTally(s: State, c: ConnId, o: MsgId, open: Open)
    requires Inv(s, open) && c in s.clients && Tally(s, o)
    ensures Tally(Notify(s, c, open), o)
  {
    if s.clients[c] != [] {
      HeadAsked(s, c, open);
      DoneTally(s, c, s.clients[c][0], o, open);
    }
  }

  // ---------- Requests come in ----------

  /** A new request does not touch the count of a vector that is there; a new vector starts at zero. */
  lemma AddTally(s: State, r: Req, head: bool, now: int, open: Open, o: MsgId)
    requires Inv(s, open) && NewOk(s, r) && Fits(s, r, open) && Tally(s, o)
    ensures Tally(Add(s, r, head, now), o)
  {
    var s', id := Add(s, r, head, now), s.nextId;
    Fresh(s, open);
    AddCoalesced(s, r, open, o);
    if Waiting(s', o) {
      if o == id {
        assert Counting(s', o) == {};
      } else {
        AddCount(s, r, head, now, open, o);
      }
    }
  }

  lemma AddCount(s: State, r: Req, head: bool, now: int, open: Open, o: MsgId)
    requires Inv(s, open) && NewOk(s, r) && Fits(s, r, open) && Tally(s, o) && o != s.nextId
    requires Waiting(Add(s, r, head, now), o)
    ensures var s' := Add(s, r, head, now); s'.reqs[o].nfragDone == |Counting(s', o)|
  {
    var s', id := Add(s, r, head, now), s.nextId;
    Fresh(s, open);
    WaitingOwner(s, o, open);
    forall x ensures x in Counting(s', o) <==> x in Counting(s, o) {
      if x in s.hist.vectors[o] { assert PartOf(s.reqs, s.hist, s.clients[s.reqs[o].client], o, s.reqs[o].fragId, x); }
    }
    assert Counting(s', o) == Counting(s, o);
  }

  lemma AddCoalesced(s: State, r: Req, open: Open, o: MsgId)
    requires Inv(s, open) && Fits(s, r, open) && Tally(s, o)
    ensures var h' := AddHistory(s.hist, r, s.nextId);
      o in h'.coalesced && o in h'.vectors ==> forall x :: x in h'.vectors[o] ==> x !in h'.stuck
  {
    Fresh(s, open);
    if o in s.hist.coalesced && r.fragOwner == Some(o) && open.Opened? {
      Unfold(s, open);
      Entry(s, s.reqs[open.owner].client, open.owner, open);
    }
  }

  lemma HandshakeTally(s: State, c: ConnId, sid: ConnId, head: bool, now: int, open: Open, o: MsgId)
    requires Inv(s, open) && sid in s.servers && Tally(s, o)
    ensures Tally(Handshake(s, c, sid, head, now, open), o)
  {
    Fresh(s, open);
    AddTally(s, HandshakeReq(c, sid), head, now, open, o);
  }

  lemma ForwardToTally(s: State, r: Req, sid: ConnId, now: int, open: Open, o: MsgId)
    requires Inv(s, open) && Forwardable(s, r, open) && sid in s.servers && Tally(s, o)
    ensures Tally(ForwardTo(s, r, sid, now, open), o)
  {
    ForwardableFits(s, r, To(sid, false, now), open);
    AddTally(s, r.(at := Some(sid)), false, now, open, o);
  }

  lemma ForwardErrorTally(s: State, r: Req, err: int, open: Open, o: MsgId)
    requires Inv(s, open) && Forwardable(s, r, open) && Tally(s, o)
    ensures Tally(ForwardError(s, r, err, open), o)
  {
    if r.noreply {
      InvFiltered(s, open);
      QuietTally(s, Filtered(s), o, open);
    } else {
      ForwardableFits(s, r, Nowhere(err), open);
      AddTally(s, Routed(r, Nowhere(err)), false, 0, open, o);
      NotifyTally(AddFailed(s, r, err, open), r.client, o, Left(open));
    }
  }

  lemma ForwardTally(s: State, r: Req, route: Route, open: Open, o: MsgId)
    requires Inv(s, open) && Forwardable(s, r, open) && Reachable(s, route) && Tally(s, o)
    ensures Tally(Forward(s, r, route, open), o)
  {
    match route
    case To(sid, auth, now) =>
      if auth {
        HandshakeTally(s, r.client, sid, false, now, open, o);
        ForwardToTally(Handshake(s, r.client, sid, false, now, open), r, sid, now, open, o);
      } else {
        ForwardToTally(s, r, sid, now, open, o);
      }
    case Nowhere(err) => ForwardErrorTally(s, r, err, open, o);
  }

  lemma {:induction false} FragmentsTally(s: State, p: MsgId, routes: seq<Route>, o: MsgId)
    requires Inv(s, OpenFor(p, routes)) && AllReachable(s, routes) && Tally(s, o)
    ensures Tally(Fragments(s, p, routes), o)
    decreases |routes|
  {
    if routes != [] {
      FragmentsStep(s, p, routes);
      var r := FragReq(s.reqs[p].client, p, s.reqs[p].fragId);
      ForwardTally(s, r, routes[0], Opened(p, |routes|), o);
      FragmentsTally(Forward(s, r, routes[0], Opened(p, |routes|)), p, routes[1..], o);
    }
  }

  lemma NextFragTally(s: State, o: MsgId)
    requires Tally(s, o)
    ensures Tally(s.(nextFrag := s.nextFrag + 1), o)
  {
    var s' := s.(nextFrag := s.nextFrag + 1);
    if o in s.hist.vectors { assert Counting(s', o) == Counting(s, o); }
  }

  lemma OpenTally(s: State, c: ConnId, routes: seq<Route>, o: MsgId)
    requires Inv(s, Closed) && c in s.clients && routes != [] && AllReachable(s, routes) && Tally(s, o)
    ensures Tally(OpenVector(s, c, routes), o)
  {
    InvNextFrag(s);
    var s1 := s.(nextFrag := s.nextFrag + 1);
    FragIdsBelow(s);
    Fresh(s1, Closed);
    NextFragTally(s, o);
    AddTally(s1, OwnerReq(c, s.nextId, s.nextFrag, |routes|), false, 0, Closed, o);
  }

  // ---------- Server connections ----------

  /** A fragment that waits for its answer is one of its owner's, and was sent somewhere. */
  lemma FragmentOf(s: State, id: MsgId)
    requires Inv(s, Closed) && id in s.reqs && s.reqs[id].at.Some? && !s.reqs[id].swallow && !s.reqs[id].noreply
    ensures !s.reqs[id].done && id !in s.hist.stuck && s.reqs[id].client in s.clients
    ensures s.reqs[id].fragOwner.Some? ==>
      var p := s.reqs[id].fragOwner.value; p in s.hist.vectors && id in s.hist.vectors[p] && p in s.reqs && p != id
  {
    Unfold(s, Closed);
    assert ReqOk(s, id, s.reqs[id]) && PairedAt(s.hist, id, s.reqs[id]);
    Entry(s, s.reqs[id].client, id, Closed);
  }

  /** Done, and counted by its owner. */
  function Counted(s: State, sid: ConnId, v: ServerConn, id: MsgId, r: Req, h: History, out: bool): (s': State)
    requires Inv(s, Closed) && Settles(s, sid, v, id, r, h)
    ensures Inv(s', Closed) && r.client in s'.clients
  {
    var s1 := Finish(s, sid, v, id, r, h);
    var s2 := if out then CancelDone(s1, id) else s1;
    BumpOwner(s2, r.fragOwner)
  }

  lemma CountedTally(s: State, sid: ConnId, v: ServerConn, id: MsgId, r: Req, h: History, out: bool, o: MsgId)
    requires Inv(s, Closed) && Settles(s, sid, v, id, r, h) && Tally(s, o)
    ensures Tally(Counted(s, sid, v, id, r, h, out), o)
  {
    var s' := Counted(s, sid, v, id, r, h, out);
    FragmentOf(s, id);
    if Waiting(s', o) {
      WaitingOwner(s', o, Closed);
      if r.fragOwner == Some(o) {
        OneMore(s, s', id, o);
      } else {
        OneOther(s, s', id, o);
      }
    }
  }

  lemma OneMore(s: State, s': State, id: MsgId, o: MsgId)
    requires Waiting(s, o) && s.reqs[o].nfragDone == |Counting(s, o)| && o != id
    requires s'.hist.vectors == s.hist.vectors && s'.hist.stuck == s.hist.stuck && s'.reqs.Keys == s.reqs.Keys
    requires id in s.hist.vectors[o] && id !in s.hist.stuck && id in s.reqs && !s.reqs[id].done && s'.reqs[id].done
    requires forall x :: x in s.reqs && x != id ==> s'.reqs[x].done == s.reqs[x].done
    requires s'.reqs[o].nfragDone == s.reqs[o].nfragDone + 1
    ensures s'.reqs[o].nfragDone == |Counting(s', o)|
  {
    forall x ensures x in Counting(s', o) <==> x in Counting(s, o) + {id} {}
    assert Counting(s', o) == Counting(s, o) + {id};
  }

  lemma OneOther(s: State, s': State, id: MsgId, o: MsgId)
    requires Waiting(s, o) && s.reqs[o].nfragDone == |Counting(s, o)|
    requires s'.hist.vectors == s.hist.vectors && s'.hist.stuck == s.hist.stuck && s'.reqs.Keys == s.reqs.Keys
    requires id !in s.hist.vectors[o]
    requires forall x :: x in s.reqs && x != id ==> s'.reqs[x].done == s.reqs[x].done
    requires s'.reqs[o].nfragDone == s.reqs[o].nfragDone
    ensures s'.reqs[o].nfragDone == |Counting(s', o)|
  {
    forall x ensures x in Counting(s', o) <==> x in Counting(s, o) {}
    assert Counting(s', o) == Counting(s, o);
  }

  lemma SettleTally(s: State, sid: ConnId, v: ServerConn, id: MsgId, r: Req, h: History, out: bool, o: MsgId)
    requires Inv(s, Closed) && Settles(s, sid, v, id, r, h) && Tally(s, o)
    ensures Tally(Settle(s, sid, v, id, r, h, out), o)
  {
    CountedTally(s, sid, v, id, r, h, out, o);
    NotifyTally(Counted(s, sid, v, id, r, h, out), r.client, o, Closed);
  }

  lemma RespondTally(s: State, sid: ConnId, y: int, bad: bool, o: MsgId)
    requires Inv(s, Closed) && sid in s.servers && sid in s.hist.wire && s.hist.wire[sid] != [] && Tally(s, o)
    ensures Tally(Respond(s, sid, y, bad), o)
  {
    AnswerSettles(s, sid, y, bad);
    var v := s.servers[sid];
    var id, h := v.outq[0], AnswerHistory(s.hist, sid, y);
    if s.reqs[id].swallow {
      QuietTally(s, Respond(s, sid, y, bad), o, Closed);
    } else {
      SettleTally(s, sid, v.(outq := v.outq[1..]), id, WithAnswer(s.reqs[id], y, bad), h, true, o);
    }
  }

  lemma SendTally(s: State, sid: ConnId, o: MsgId)
    requires Inv(s, Closed) && sid in s.servers && sid in s.hist.wire && Tally(s, o)
    ensures Tally(ServerSend(s, sid), o)
  {
    if s.servers[sid].inq != [] {
      var id := s.servers[sid].inq[0];
      ServerEntry(s, sid, id, Closed);
      if s.reqs[id].noreply {
        QuietTally(s, SendNoreply(s, sid), o, Closed);
      } else {
        InvSendHead(s, sid);
        QuietTally(s, SendHead(s, sid), o, Closed);
      }
    }
  }

  lemma FailOneTally(s: State, sid: ConnId, v: ServerConn, id: MsgId, err: int, out: bool, o: MsgId)
    requires Inv(s, Closed) && sid in s.servers && sid !in s.hist.wire && Takes(s.servers[sid], id, v)
    requires id in s.reqs && s.reqs[id].at == Some(sid) && Tally(s, o)
    ensures Tally(FailOne(s, sid, v, id, err, out), o)
  {
    FailSettles(s, sid, v, id, err);
    if s.reqs[id].swallow || s.reqs[id].noreply {
      QuietTally(s, FailOne(s, sid, v, id, err, out), o, Closed);
    } else {
      SettleTally(s, sid, v, id, Failed(s.reqs[id], err), s.hist, out, o);
    }
  }

  lemma {:induction false} FailAllTally(s: State, sid: ConnId, err: int, o: MsgId)
    requires Inv(s, Closed) && sid in s.servers && sid !in s.hist.wire && Tally(s, o)
    ensures Tally(FailAll(s, sid, err), o)
    decreases |s.servers[sid].inq| + |s.servers[sid].outq|
  {
    var v := s.servers[sid];
    if v.inq != [] {
      ServerEntry(s, sid, v.inq[0], Closed);
      TakeIn(v);
      FailOneTally(s, sid, v.(inq := v.inq[1..]), v.inq[0], err, false, o);
      FailAllTally(FailIn(s, sid, err), sid, err, o);
    } else if v.outq != [] {
      ServerEntry(s, sid, v.outq[0], Closed);
      TakeOut(v);
      FailOneTally(s, sid, v.(outq := v.outq[1..]), v.outq[0], err, true, o);
      FailAllTally(FailOut(s, sid, err), sid, err, o);
    }
  }

  lemma CloseUnwiredTally(s: State, sid: ConnId, err: int, o: MsgId)
    requires Inv(s, Closed) && sid in s.servers && sid !in s.hist.wire && Tally(s, o)
    ensures Tally(CloseUnwired(s, sid, err), o)
  {
    FailAllTally(s, sid, err, o);
    QuietTally(FailAll(s, sid, err), CloseUnwired(s, sid, err), o, Closed);
  }

  lemma CloseServerTally(s: State, sid: ConnId, err: int, o: MsgId)
    requires Inv(s, Closed) && sid in s.servers && Tally(s, o)
    ensures Tally(CloseServer(s, sid, err), o)
  {
    InvUnwire(s, sid);
    QuietTally(s, Unwire(s, sid), o, Closed);
    CloseUnwiredTally(Unwire(s, sid), sid, err, o);
  }

  lemma ExpireTally(s: State, o: MsgId)
    requires Inv(s, Closed) && s.timers != [] && Tally(s, o)
    requires s.timers[0].id in s.reqs && !s.reqs[s.timers[0].id].done
    ensures Tally(Expire(s), o)
  {
    FirstTimer(s);
    var t := s.timers[0];
    InvUnwire(s, t.conn);
    var s1 := CancelDone(Unwire(s, t.conn), t.id);
    QuietTally(s, s1, o, Closed);
    CloseUnwiredTally(s1, t.conn, ETIMEDOUT, o);
  }

  lemma {:induction false} TimeoutsTally(s: State, nows: seq<int>, o: MsgId)
    requires Inv(s, Closed) && |s.timers| < |nows| && Tally(s, o)
    ensures Tally(Timeouts(s, nows).0, o)
    decreases |s.timers|
  {
    if s.timers != [] {
      FirstTimer(s);
      if s.reqs[s.timers[0].id].done {
        QuietTally(s, DropTimer(s), o, Closed);
        TimeoutsTally(DropTimer(s), nows, o);
      } else if nows[0] >= s.timers[0].deadline {
        ExpireTally(s, o);
        TimeoutsTally(Expire(s), nows[1..], o);
      }
    }
  }

  // ---------- Client connections ----------

  lemma CloseClientTally(s: State, c: ConnId, o: MsgId)
    requires Inv(s, Closed) && c in s.clients && Tally(s, o)
    ensures Tally(ClientClose(s, c), o)
  {
    QueueLive(s, c, Closed);
    assert Drained(s, s.clients[c], Drain(s, s.clients[c])) by {
      Unfold(s, Closed);
      DrainOk(s, s.clients[c]);
    }
    QuietTally(s, ClientClose(s, c), o, Closed);
  }

  lemma {:induction false} DropNextTally(s: State, c: ConnId, k: nat, n: nat, o: MsgId)
    requires Inv(s, Closed) && Stands(s, c, k, n) && Tally(s, o)
    ensures Tally(DropNext(s, c, k, n), o)
    decreases n
  {
    if n > 0 {
      InvDrop(s, c, k, n);
      QuietTally(s, Drop(s, c, k + 1), o, Closed);
      DropNextTally(Drop(s, c, k + 1), c, k, n - 1, o);
    }
  }

  lemma BlameTally(s: State, c: ConnId, k: nat, o: MsgId)
    requires Inv(s, Closed) && CanFail(s, c, k) && Tally(s, o)
    ensures Tally(Blame(s, c, k), o)
  {
    var id, n, err := s.clients[c][k], Followers(s, c, k), ErrOf(s, c, k);
    FailureStands(s, c, k, err);
    var s0 := SetPeer(s, id, Failure(err));
    QuietTally(s, s0, o, Closed);
    DropNextTally(s0, c, k, n, o);
    DropKeepsHead(s0, c, k, n);
    QuietTally(DropNext(s0, c, k, n), Blame(s, c, k), o, Closed);
  }

  lemma PickAsked(s: State, c: ConnId, k: nat)
    requires Inv(s, Closed) && Picked(s, c, k) && k < |s.clients[c]|
    ensures Asked(s, s.clients[c][k])
  {
    forall p | 0 <= p < k ensures !Unlatched(s.reqs[s.clients[c][p]]) { assert Ready(s.reqs, s.clients[c], p); }
    FirstUnmarked(s, c, k, Closed);
  }

  lemma PickTally(s: State, c: ConnId, k: nat, o: MsgId)
    requires Inv(s, Closed) && Picked(s, c, k) && k < |s.clients[c]| && Tally(s, o)
    ensures Tally(Pick(s, c, k).0, o)
  {
    var id := s.clients[c][k];
    var d := ReqDone(s, c, id, Closed);
    PickAsked(s, c, k);
    DoneTally(s, c, id, o, Closed);
    ReqDoneKeepsPicked(s, c, id, k);
    if d.1 && IsError(d.0.reqs, s.clients[c], id) {
      PickCanFail(d.0, c, k);
      BlameTally(d.0, c, k, o);
      QuietTally(Blame(d.0, c, k), MakeError(d.0, c, k), o, Closed);
    }
  }

  lemma PicksRoundTally(s: State, c: ConnId, k: nat, limit: nat, o: MsgId) returns (s1: State, p: (State, nat))
    requires Inv(s, Closed) && Picked(s, c, k) && limit > 0 && k < |s.clients[c]| && Tally(s, o)
    ensures Tally(s1, o) && Inv(s1, Closed) && p == Picks(s, c, k, limit)
    ensures GoesOn(s1, c, limit, p) || p.0 == s1
  {
    PickTally(s, c, k, o);
    if Pick(s, c, k).1 { PicksOn(s, c, k, limit); } else { PicksMore(s, c, k, limit); }
    s1, p := Pick(s, c, k).0, Picks(s, c, k, limit);
  }

  lemma {:induction false} PicksTally(s: State, c: ConnId, k: nat, limit: nat, o: MsgId)
    requires Inv(s, Closed) && Picked(s, c, k) && Tally(s, o)
    ensures Tally(Picks(s, c, k, limit).0, o)
    decreases limit, 1
  {
    if limit == 0 || k == |s.clients[c]| {
      PicksStop(s, c, k, limit);
    } else {
      PicksMoreTally(s, c, k, limit, o);
    }
  }

  lemma {:induction false} PicksMoreTally(s: State, c: ConnId, k: nat, limit: nat, o: MsgId)
    requires Inv(s, Closed) && Picked(s, c, k) && limit > 0 && k < |s.clients[c]| && Tally(s, o)
    ensures Tally(Picks(s, c, k, limit).0, o)
    decreases limit, 0
  {
    var s1, p := PicksRoundTally(s, c, k, limit, o);
    if p.0 != s1 {
      var k1: nat, limit1: nat :| limit1 < limit && Picked(s1, c, k1) && p == Picks(s1, c, k1, limit1);
      PicksTally(s1, c, k1, limit1, o);
    }
  }

  lemma ReleaseTally(s: State, c: ConnId, k: nat, m: nat, empty: bool, o: MsgId)
    requires Inv(s, Closed) && Picked(s, c, m) && k < m && Tally(s, o)
    requires if empty then s.clients[c][k] in s.hist.parts else k == 0
    ensures Tally(ReleaseOne(s, c, k, m, empty), o)
  {
    var s' := ReleaseOne(s, c, k, m, empty);
    if Waiting(s', o) { SameCount(s, s', o, Closed); }
  }

  lemma {:induction false} ReleasesTally(s: State, c: ConnId, k: nat, m: nat, full: nat, zero: set<MsgId>, o: MsgId)
    requires Inv(s, Closed) && Picked(s, c, m) && k <= m && full <= m - k && (full > 0 ==> k == 0)
    requires zero <= s.hist.parts && Tally(s, o)
    ensures Tally(Releases(s, c, k, m, full, zero), o)
    decreases m - k
  {
    if k < m {
      if full > 0 {
        ReleaseTally(s, c, 0, m, s.clients[c][0] in zero, o);
        ReleasesTally(ReleaseOne(s, c, 0, m, s.clients[c][0] in zero), c, 0, m - 1, full - 1, zero, o);
      } else if s.clients[c][k] in zero {
        ReleaseTally(s, c, k, m, true, o);
        ReleasesTally(ReleaseOne(s, c, k, m, true), c, k, m - 1, 0, zero, o);
      } else {
        ReleasesTally(s, c, k + 1, m, 0, zero, o);
      }
    }
  }

  lemma WriteTally(s: State, c: ConnId, limit: nat, full: nat, zero: set<MsgId>, part: nat, o: MsgId)
    requires Inv(s, Closed) && c in s.clients && Tally(s, o)
    ensures Tally(ClientSend(s, c, limit, full, zero, part), o)
  {
    QueueLive(s, c, Closed);
    var p := Picks(s, c, 0, limit);
    var n, empty := if full <= p.1 then full else p.1, zero * p.0.hist.parts;
    PicksTally(s, c, 0, limit, o);
    ReleasesTally(p.0, c, 0, p.1, n, empty, o);
    AdvanceTally(Releases(p.0, c, 0, p.1, n, empty), c, part, o);
  }

  lemma AdvanceTally(s: State, c: ConnId, part: nat, o: MsgId)
    requires Inv(s, Closed) && c in s.clients && Tally(s, o)
    ensures Tally(Advance(s, c, part), o)
  {
    if s.clients[c] != [] { HeadAlive(s, c); }
    QuietTally(s, Advance(s, c, part), o, Closed);
  }

  // ---------- Runs ----------

  lemma StepTally(s: State, e: Event, o: MsgId)
    requires Good(s) && Enabled(s, e) && Tally(s, o)
    ensures Tally(Step(s, e), o)
  {
    match e
    case ClientOpens(c) => OpensTally(s, c, o);
    case ServerOpens(sid) => QuietTally(s, Step(s, e), o, Closed);
    case Discarded => QuietTally(s, Step(s, e), o, Closed);
    case NoForward(c) => LocalTally(s, c, o);
    case Single(c, noreply, route) => SingleTally(s, c, noreply, route, o);
    case Vector(c, routes) =>
      OpenTally(s, c, routes, o);
      FragmentsTally(OpenVector(s, c, routes), s.nextId, routes, o);
    case Greeting(c, sid, head, now) => HandshakeTally(s, c, sid, head, now, Closed, o);
    case Sent(sid) => SendTally(s, sid, o);
    case Response(sid, y, bad) => RespondTally(s, sid, y, bad, o);
    case ServerCloses(sid, err) => CloseServerTally(s, sid, err, o);
    case ClientCloses(c) => CloseClientTally(s, c, o);
    case Written(c, limit, full, zero, part) => WriteTally(s, c, limit, full, zero, part, o);
    case Timeout(nows) => TimeoutsTally(s, nows, o);
  }

  lemma OpensTally(s: State, c: ConnId, o: MsgId)
    requires Good(s) && Enabled(s, ClientOpens(c)) && Tally(s, o)
    ensures Tally(Step(s, ClientOpens(c)), o)
  {
    var s' := Step(s, ClientOpens(c));
    if Waiting(s', o) { SameCount(s, s', o, Closed); }
  }

  lemma LocalTally(s: State, c: ConnId, o: MsgId)
    requires Inv(s, Closed) && c in s.clients && Tally(s, o)
    ensures Tally(RecvLocal(s, c), o)
  {
    Fresh(s, Closed);
    AddTally(s, SingleReq(c, false).(done := true, peer := Some(Local)), false, 0, Closed, o);
  }

  lemma SingleTally(s: State, c: ConnId, noreply: bool, route: Route, o: MsgId)
    requires Inv(s, Closed) && c in s.clients && Reachable(s, route) && Tally(s, o)
    ensures Tally(RecvSingle(s, c, noreply, route), o)
  {
    Fresh(s, Closed);
    ForwardTally(s, SingleReq(c, noreply), route, Closed, o);
  }

  lemma {:induction false} RunTally(s: State, es: seq<Event>, o: MsgId)
    requires Good(s) && Possible(s, es) && Tally(s, o)
    ensures Tally(Run(s, es), o)
    decreases |es|
  {
    if es != [] {
      StepTally(s, es[0], o);
      RunTally(Step(s, es[0]), es[1..], o);
    }
  }
}
