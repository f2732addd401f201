/** The marks of a request are set and never cleared, by any event: the life of a request goes one way. */
module PipelineMarks {
  import opened Basics
  import opened Seqs
  import opened PipelineState
  import opened PipelineInv
  import opened PipelineQueues
  import opened PipelineMoves
  import opened PipelineFlags
  import opened PipelineConns
  import opened PipelineHandlers
  import opened PipelineServer
  import opened PipelineClient
  import opened PipelineRuns

  /** A record that came out of another: what says who asked for what is the same, and no mark is lost. */
  ghost predicate Grew(r: Req, r': Req) {
    && r'.client == r.client && r'.noreply == r.noreply
    && r'.fragId == r.fragId && r'.fragOwner == r.fragOwner && r'.nfrag == r.nfrag && r.nfragDone <= r'.nfragDone
    && (r.done ==> r'.done) && (r.error ==> r'.error) && (r.swallow ==> r'.swallow)
    && (r.fdone ==> r'.fdone) && (r.ferror ==> r'.ferror)
  }

  /** What has been noted is not taken back: arrivals, vectors, fragments, answers. */
  ghost predicate Older(h: History, h': History) {
    forall u :: Lock(3, u) ==>
      && h.parts <= h'.parts && h.stuck <= h'.stuck && h.answers.Keys <= h'.answers.Keys
      && (forall o :: o in h.vectors ==> o in h'.vectors && h.vectors[o] <= h'.vectors[o])
      && (forall c :: c in h.arrived ==> c in h'.arrived && h.arrived[c] <= h'.arrived[c])
  }

  lemma SameOld(h: History, h': History)
    requires h'.parts == h.parts && h'.stuck == h.stuck && h'.vectors == h.vectors && h'.arrived == h.arrived
    requires h.answers.Keys <= h'.answers.Keys
    ensures Older(h, h')
  {
  }

  lemma OlderBoth(h: History, h1: History, h2: History)
    requires Older(h, h1) && Older(h1, h2)
    ensures Older(h, h2)
  {
    assert Lock(3, 0);
  }

  lemma OlderAdd(h: History, r: Req, id: MsgId)
    requires id !in h.vectors
    ensures Older(h, AddHistory(h, r, id))
  {
    var h1 := h.(arrived := if r.noreply || r.swallow || r.client !in h.arrived then h.arrived
                            else h.arrived[r.client := h.arrived[r.client] + [id]],
                 local := if r.peer == Some(Local) && r.fragOwner.None? then h.local + {id} else h.local);
    OlderArrived(h, h1, r.client, id);
    OlderVector(h1, r, id);
    OlderBoth(h, h1, AddVector(h1, r, id));
  }

  lemma OlderArrived(h: History, h': History, c: ConnId, id: MsgId)
    requires h' == h.(arrived := h'.arrived, local := h'.local)
    requires h'.arrived == h.arrived || (c in h.arrived && h'.arrived == h.arrived[c := h.arrived[c] + [id]])
    ensures Older(h, h')
  {
  }

  lemma OlderVector(h: History, r: Req, id: MsgId)
    requires id !in h.vectors
    ensures Older(h, AddVector(h, r, id))
  {
    var h' := AddVector(h, r, id);
    if r.fragOwner.Some? && r.fragOwner.value != id && r.fragOwner.value in h.vectors {
      MoreFragments(h, h', r.fragOwner.value, id);
    } else {
      SameOldBut(h, h', id);
    }
  }

  lemma SameOldBut(h: History, h': History, id: MsgId)
    requires id !in h.vectors && h'.parts == h.parts && h'.stuck == h.stuck && h'.arrived == h.arrived
    requires h'.answers == h.answers
    requires h'.vectors == h.vectors || h'.vectors == h.vectors[id := []]
    ensures Older(h, h')
  {
  }

  lemma MoreFragments(h: History, h': History, o: MsgId, id: MsgId)
    requires o in h.vectors && h'.vectors == h.vectors[o := h.vectors[o] + [id]] && h'.arrived == h.arrived
    requires h.parts <= h'.parts && h.stuck <= h'.stuck && h'.answers == h.answers
    ensures Older(h, h')
  {
  }

  /** What a later state says of request x of an earlier one: if it is still there, it was there all the
      time and its record grew; and only a request that was not done is answered. */
  ghost predicate Later(s: State, x: MsgId, s': State) {
    && s.nextId <= s'.nextId && Older(s.hist, s'.hist)
    && (x < s.nextId && x in s'.reqs ==> x in s.reqs && Grew(s.reqs[x], s'.reqs[x]))
    && (x < s.nextId && x in s'.hist.stuck ==> x in s.hist.stuck)
    && (x < s.nextId && x in s'.hist.parts ==> x in s.hist.parts)
    && (x < s.nextId && x in s'.hist.answers && x !in s.hist.answers ==> x in s.reqs && !s.reqs[x].done)
  }

  lemma Both(s: State, x: MsgId, s1: State, s2: State)
    requires Later(s, x, s1) && Later(s1, x, s2)
    ensures Later(s, x, s2)
  {
    OlderBoth(s.hist, s1.hist, s2.hist);
  }

  // ---------- req_done ----------

  lemma LatchLater(s: State, q: seq<MsgId>, f: nat, o: MsgId, x: MsgId)
    requires o in s.hist.vectors && o in s.reqs
    ensures Later(s, x, Latch(s, q, f, o))
  {
    SameOld(s.hist, Latch(s, q, f, o).hist);
    var reqs, s' := SetFdone(s.reqs, Members(s.reqs, q, f)), Latch(s, q, f, o);
    if x in s.reqs {
      assert reqs[x] == s.reqs[x].(fdone := reqs[x].fdone) && (s.reqs[x].fdone ==> reqs[x].fdone);
      assert s'.reqs[x] == reqs[x].(peer := s'.reqs[x].peer);
    }
  }

  lemma DoneLater(s: State, c: ConnId, id: MsgId, x: MsgId, open: Open)
    requires Inv(s, open) && c in s.clients && id in s.clients[c] && (open.Closed? || id == s.clients[c][0])
    ensures Later(s, x, ReqDone(s, c, id, open).0)
  {
    SameOld(s.hist, s.hist);
    assert id in s.reqs && Live(s.reqs, s.clients[c]) by { Entry(s, c, id, open); }
    if IsDone(s.reqs, s.clients[c], id) && Unlatched(s.reqs[id]) {
      OwnerOf(s, c, id, open);
      LatchLater(s, s.clients[c], s.reqs[id].fragId, s.reqs[id].fragOwner.value, x);
    }
  }

  lemma NotifyLater(s: State, c: ConnId, x: MsgId, open: Open)
    requires Inv(s, open) && c in s.clients
    ensures Later(s, x, Notify(s, c, open))
  {
    SameOld(s.hist, s.hist);
    if s.clients[c] != [] { DoneLater(s, c, s.clients[c][0], x, open); }
  }

  // ---------- Requests come in ----------

  lemma HandshakeLater(s: State, c: ConnId, sid: ConnId, head: bool, now: int, open: Open, x: MsgId)
    requires Inv(s, open) && sid in s.servers
    ensures Later(s, x, Handshake(s, c, sid, head, now, open))
  {
    Fresh(s, open);
    OlderAdd(s.hist, HandshakeReq(c, sid), s.nextId);
  }

  lemma ForwardToLater(s: State, r: Req, sid: ConnId, now: int, open: Open, x: MsgId)
    requires Inv(s, open) && Forwardable(s, r, open) && sid in s.servers
    ensures Later(s, x, ForwardTo(s, r, sid, now, open))
  {
    Fresh(s, open);
    OlderAdd(s.hist, r.(at := Some(sid)), s.nextId);
  }

  lemma ForwardErrorLater(s: State, r: Req, err: int, open: Open, x: MsgId)
    requires Inv(s, open) && Forwardable(s, r, open)
    ensures Later(s, x, ForwardError(s, r, err, open))
  {
    SameOld(s.hist, Filtered(s).hist);
    if !r.noreply {
      var s1 := AddFailed(s, r, err, open);
      FailedLater(s, r, err, open, x);
      NotifyLater(s1, r.client, x, Left(open));
      Both(s, x, s1, Notify(s1, r.client, Left(open)));
    }
  }

  lemma FailedLater(s: State, r: Req, err: int, open: Open, x: MsgId)
    requires Inv(s, open) && Forwardable(s, r, open) && !r.noreply
    ensures Later(s, x, AddFailed(s, r, err, open))
  {
    Fresh(s, open);
    OlderAdd(s.hist, Routed(r, Nowhere(err)), s.nextId);
  }

  lemma ForwardLater(s: State, r: Req, route: Route, open: Open, x: MsgId)
    requires Inv(s, open) && Forwardable(s, r, open) && Reachable(s, route)
    ensures Later(s, x, Forward(s, r, route, open))
  {
    match route
    case To(sid, auth, now) =>
      if auth {
        var s1 := Handshake(s, r.client, sid, false, now, open);
        HandshakeLater(s, r.client, sid, false, now, open, x);
        ForwardToLater(s1, r, sid, now, open, x);
        Both(s, x, s1, ForwardTo(s1, r, sid, now, open));
      } else {
        ForwardToLater(s, r, sid, now, open, x);
      }
    case Nowhere(err) => ForwardErrorLater(s, r, err, open, x);
  }

  lemma {:induction false} FragmentsLater(s: State, o: MsgId, routes: seq<Route>, x: MsgId)
    requires Inv(s, OpenFor(o, routes)) && AllReachable(s, routes)
    ensures Later(s, x, Fragments(s, o, routes))
    decreases |routes|
  {
    SameOld(s.hist, s.hist);
    if routes != [] {
      FragmentsStep(s, o, routes);
      var r := FragReq(s.reqs[o].client, o, s.reqs[o].fragId);
      var s1 := Forward(s, r, routes[0], Opened(o, |routes|));
      ForwardLater(s, r, routes[0], Opened(o, |routes|), x);
      FragmentsLater(s1, o, routes[1..], x);
      Both(s, x, s1, Fragments(s1, o, routes[1..]));
    }
  }

  lemma VectorLater(s: State, c: ConnId, routes: seq<Route>, x: MsgId)
    requires Inv(s, Closed) && c in s.clients && routes != [] && AllReachable(s, routes)
    ensures Later(s, x, RecvVector(s, c, routes))
  {
    var s1 := OpenVector(s, c, routes);
    OpenLater(s, c, routes, x);
    FragmentsLater(s1, s.nextId, routes, x);
    Both(s, x, s1, Fragments(s1, s.nextId, routes));
  }

  lemma OpenLater(s: State, c: ConnId, routes: seq<Route>, x: MsgId)
    requires Inv(s, Closed) && c in s.clients && routes != [] && AllReachable(s, routes)
    ensures Later(s, x, OpenVector(s, c, routes))
  {
    Fresh(s, Closed);
    OlderAdd(s.hist, OwnerReq(c, s.nextId, s.nextFrag, |routes|), s.nextId);
  }

  lemma SingleLater(s: State, c: ConnId, noreply: bool, route: Route, x: MsgId)
    requires Inv(s, Closed) && c in s.clients && Reachable(s, route)
    ensures Later(s, x, RecvSingle(s, c, noreply, route))
  {
    Fresh(s, Closed);
    ForwardLater(s, SingleReq(c, noreply), route, Closed, x);
  }

  // ---------- Server connections ----------

  lemma FinishLater(s: State, sid: ConnId, v: ServerConn, id: MsgId, r: Req, h: History, x: MsgId)
    requires Inv(s, Closed) && Settles(s, sid, v, id, r, h) && !s.reqs[id].error
    ensures Later(s, x, Finish(s, sid, v, id, r, h))
  {
    AtServerUndone(s, id);
    forall y | y in s.hist.answers.Keys ensures y in h.answers.Keys {}
    SameOld(s.hist, h);
  }

  lemma AtServerUndone(s: State, id: MsgId)
    requires Inv(s, Closed) && id in s.reqs && s.reqs[id].at.Some?
    ensures !s.reqs[id].done
  {
    Unfold(s, Closed);
    assert ReqOk(s, id, s.reqs[id]);
  }

  lemma BumpLater(s: State, o: Option<MsgId>, x: MsgId)
    requires Inv(s, Closed) && (o.Some? ==> o.value in s.reqs)
    ensures Later(s, x, BumpOwner(s, o))
  {
    SameOld(s.hist, s.hist);
  }

  lemma SettleLater(s: State, sid: ConnId, v: ServerConn, id: MsgId, r: Req, h: History, out: bool, x: MsgId)
    requires Inv(s, Closed) && Settles(s, sid, v, id, r, h)
    ensures Later(s, x, Settle(s, sid, v, id, r, h, out))
  {
    OwnerAlive(s, id);
    var s1 := Finish(s, sid, v, id, r, h);
    FinishLater(s, sid, v, id, r, h, x);
    var s2 := if out then CancelDone(s1, id) else s1;
    var s3 := BumpOwner(s2, r.fragOwner);
    SameOld(s1.hist, s2.hist);
    BumpLater(s2, r.fragOwner, x);
    Both(s1, x, s2, s3);
    NotifyLater(s3, r.client, x, Closed);
    Both(s, x, s1, s3);
    Both(s, x, s3, Notify(s3, r.client, Closed));
  }

  lemma RespondLater(s: State, sid: ConnId, y: int, bad: bool, x: MsgId)
    requires Inv(s, Closed) && sid in s.servers && sid in s.hist.wire && s.hist.wire[sid] != []
    ensures Later(s, x, Respond(s, sid, y, bad))
  {
    AnswerSettles(s, sid, y, bad);
    var v := s.servers[sid];
    var id, h := v.outq[0], AnswerHistory(s.hist, sid, y);
    AtServerUndone(s, id);
    if s.reqs[id].swallow {
      SameOld(s.hist, Discard(s.(hist := h), sid, v, id).hist);
    } else {
      SettleLater(s, sid, v.(outq := v.outq[1..]), id, WithAnswer(s.reqs[id], y, bad), h, true, x);
    }
  }

  lemma SendLater(s: State, sid: ConnId, x: MsgId)
    requires Inv(s, Closed) && sid in s.servers && sid in s.hist.wire
    ensures Later(s, x, ServerSend(s, sid))
  {
    SameOld(s.hist, s.hist);
    if s.servers[sid].inq != [] {
      var id := s.servers[sid].inq[0];
      ServerEntry(s, sid, id, Closed);
      if s.reqs[id].noreply {
        SameOld(s.hist, SendNoreply(s, sid).hist);
      } else {
        SameOld(s.hist, SendHead(s, sid).hist);
      }
    }
  }

  lemma FailOneLater(s: State, sid: ConnId, v: ServerConn, id: MsgId, err: int, out: bool, x: MsgId)
    requires Inv(s, Closed) && sid in s.servers && sid !in s.hist.wire && Takes(s.servers[sid], id, v)
    requires id in s.reqs && s.reqs[id].at == Some(sid)
    ensures Later(s, x, FailOne(s, sid, v, id, err, out))
  {
    FailSettles(s, sid, v, id, err);
    if s.reqs[id].swallow || s.reqs[id].noreply {
      SameOld(s.hist, Discard(s, sid, v, id).hist);
    } else {
      SettleLater(s, sid, v, id, Failed(s.reqs[id], err), s.hist, out, x);
    }
  }

  lemma FailInLater(s: State, sid: ConnId, err: int, x: MsgId)
    requires Inv(s, Closed) && sid in s.servers && sid !in s.hist.wire && s.servers[sid].inq != []
    ensures Later(s, x, FailIn(s, sid, err))
  {
    var v := s.servers[sid];
    ServerEntry(s, sid, v.inq[0], Closed);
    TakeIn(v);
    FailOneLater(s, sid, v.(inq := v.inq[1..]), v.inq[0], err, false, x);
  }

  lemma FailOutLater(s: State, sid: ConnId, err: int, x: MsgId)
    requires Inv(s, Closed) && sid in s.servers && sid !in s.hist.wire && s.servers[sid].outq != []
    ensures Later(s, x, FailOut(s, sid, err))
  {
    var v := s.servers[sid];
    ServerEntry(s, sid, v.outq[0], Closed);
    TakeOut(v);
    FailOneLater(s, sid, v.(outq := v.outq[1..]), v.outq[0], err, true, x);
  }

  lemma {:induction false} FailAllLater(s: State, sid: ConnId, err: int, x: MsgId)
    requires Inv(s, Closed) && sid in s.servers && sid !in s.hist.wire
    ensures Later(s, x, FailAll(s, sid, err))
    decreases |s.servers[sid].inq| + |s.servers[sid].outq|
  {
    SameOld(s.hist, s.hist);
    if s.servers[sid].inq != [] {
      FailInLater(s, sid, err, x);
      FailAllLater(FailIn(s, sid, err), sid, err, x);
      Both(s, x, FailIn(s, sid, err), FailAll(s, sid, err));
    } else if s.servers[sid].outq != [] {
      FailOutLater(s, sid, err, x);
      FailAllLater(FailOut(s, sid, err), sid, err, x);
      Both(s, x, FailOut(s, sid, err), FailAll(s, sid, err));
    }
  }

  lemma CloseServerLater(s: State, sid: ConnId, err: int, x: MsgId)
    requires Inv(s, Closed) && sid in s.servers
    ensures Later(s, x, CloseServer(s, sid, err))
  {
    InvUnwire(s, sid);
    var s1, s' := Unwire(s, sid), CloseServer(s, sid, err);
    FailAllLater(s1, sid, err, x);
    SameOld(s.hist, s1.hist);
    Both(s, x, s1, FailAll(s1, sid, err));
    SameOld(FailAll(s1, sid, err).hist, s'.hist);
    Both(s, x, FailAll(s1, sid, err), s');
  }

  lemma ExpireLater(s: State, x: MsgId)
    requires Inv(s, Closed) && s.timers != []
    requires s.timers[0].id in s.reqs && !s.reqs[s.timers[0].id].done
    ensures Later(s, x, Expire(s))
  {
    FirstTimer(s);
    var t := s.timers[0];
    InvUnwire(s, t.conn);
    var s1, s' := CancelDone(Unwire(s, t.conn), t.id), Expire(s);
    FailAllLater(s1, t.conn, ETIMEDOUT, x);
    SameOld(s.hist, s1.hist);
    Both(s, x, s1, FailAll(s1, t.conn, ETIMEDOUT));
    SameOld(FailAll(s1, t.conn, ETIMEDOUT).hist, s'.hist);
    Both(s, x, FailAll(s1, t.conn, ETIMEDOUT), s');
  }

  lemma {:induction false} TimeoutsLater(s: State, nows: seq<int>, x: MsgId)
    requires Inv(s, Closed) && |s.timers| < |nows|
    ensures Later(s, x, Timeouts(s, nows).0)
    decreases |s.timers|
  {
    SameOld(s.hist, s.hist);
    if s.timers != [] {
      FirstTimer(s);
      if s.reqs[s.timers[0].id].done {
        TimeoutsLater(DropTimer(s), nows, x);
        SameOld(s.hist, DropTimer(s).hist);
        Both(s, x, DropTimer(s), Timeouts(s, nows).0);
      } else if nows[0] >= s.timers[0].deadline {
        ExpireLater(s, x);
        TimeoutsLater(Expire(s), nows[1..], x);
        Both(s, x, Expire(s), Timeouts(Expire(s), nows[1..]).0);
      }
    }
  }

  // ---------- Client connections ----------

  lemma CloseClientLater(s: State, c: ConnId, x: MsgId)
    requires Inv(s, Closed) && c in s.clients
    ensures Later(s, x, ClientClose(s, c))
  {
    QueueLive(s, c, Closed);
    Unfold(s, Closed);
    DrainOk(s, s.clients[c]);
    SameOld(s.hist, ClientClose(s, c).hist);
  }

  lemma {:induction false} DropNextLater(s: State, c: ConnId, k: nat, n: nat, x: MsgId)
    requires Inv(s, Closed) && Stands(s, c, k, n)
    ensures Later(s, x, DropNext(s, c, k, n))
    decreases n
  {
    SameOld(s.hist, s.hist);
    if n > 0 {
      InvDrop(s, c, k, n);
      SameOld(s.hist, Drop(s, c, k + 1).hist);
      DropNextLater(Drop(s, c, k + 1), c, k, n - 1, x);
      Both(s, x, Drop(s, c, k + 1), DropNext(Drop(s, c, k + 1), c, k, n - 1));
    }
  }

  lemma BlameMarks(s: State, c: ConnId, k: nat, x: MsgId)
    requires Inv(s, Closed) && CanFail(s, c, k)
    requires var s0 := SetPeer(s, s.clients[c][k], Failure(ErrOf(s, c, k)));
      Inv(s0, Closed) && Stands(s0, c, k, Followers(s, c, k))
    ensures var s0 := SetPeer(s, s.clients[c][k], Failure(ErrOf(s, c, k)));
      Later(DropNext(s0, c, k, Followers(s, c, k)), x, Blame(s, c, k))
  {
    var id, err := s.clients[c][k], ErrOf(s, c, k);
    var s1 := DropNext(SetPeer(s, id, Failure(err)), c, k, Followers(s, c, k));
    DropKeepsHead(SetPeer(s, id, Failure(err)), c, k, Followers(s, c, k));
    SameOld(s1.hist, Blame(s, c, k).hist);
  }

  lemma BlameLater(s: State, c: ConnId, k: nat, x: MsgId)
    requires Inv(s, Closed) && CanFail(s, c, k)
    ensures Later(s, x, Blame(s, c, k))
  {
    var id, n, err := s.clients[c][k], Followers(s, c, k), ErrOf(s, c, k);
    FailureStands(s, c, k, err);
    var s0 := SetPeer(s, id, Failure(err));
    SameOld(s.hist, s0.hist);
    DropNextLater(s0, c, k, n, x);
    Both(s, x, s0, DropNext(s0, c, k, n));
    BlameMarks(s, c, k, x);
    Both(s, x, DropNext(s0, c, k, n), Blame(s, c, k));
  }

  lemma MakeErrorLater(s: State, c: ConnId, k: nat, x: MsgId)
    requires Inv(s, Closed) && CanFail(s, c, k)
    ensures Later(s, x, MakeError(s, c, k))
  {
    BlameLater(s, c, k, x);
    SameOld(Blame(s, c, k).hist, MakeError(s, c, k).hist);
    Both(s, x, Blame(s, c, k), MakeError(s, c, k));
  }

  lemma PickLater(s: State, c: ConnId, k: nat, x: MsgId)
    requires Inv(s, Closed) && Picked(s, c, k) && k < |s.clients[c]|
    ensures Later(s, x, Pick(s, c, k).0)
  {
    var id := s.clients[c][k];
    var d := ReqDone(s, c, id, Closed);
    DoneLater(s, c, id, x, Closed);
    ReqDoneKeepsPicked(s, c, id, k);
    if d.1 && IsError(d.0.reqs, s.clients[c], id) {
      PickCanFail(d.0, c, k);
      MakeErrorLater(d.0, c, k, x);
      Both(s, x, d.0, MakeError(d.0, c, k));
    }
  }

  /** The collection that comes to p goes on from state s. */
  ghost predicate GoesOn(s: State, c: ConnId, limit: nat, p: (State, nat))
    requires Inv(s, Closed)
  {
    exists k1: nat, limit1: nat :: limit1 < limit && Picked(s, c, k1) && p == Picks(s, c, k1, limit1)
  }

  lemma PicksOn(s: State, c: ConnId, k: nat, limit: nat)
    requires Inv(s, Closed) && Picked(s, c, k) && limit > 0 && k < |s.clients[c]| && Pick(s, c, k).1
    ensures GoesOn(Pick(s, c, k).0, c, limit, Picks(s, c, k, limit))
  {
    PicksMore(s, c, k, limit);
    var s1 := Pick(s, c, k).0;
    assert Picked(s1, c, k + 1);
    assert limit - 1 < limit && Picks(s, c, k, limit) == Picks(s1, c, k + 1, limit - 1);
  }

  /** One round of the collection: the state it leaves, and what the collection will come to. */
  lemma PicksRound(s: State, c: ConnId, k: nat, limit: nat, x: MsgId) returns (s1: State, p: (State, nat))
    requires Inv(s, Closed) && Picked(s, c, k) && limit > 0 && k < |s.clients[c]|
    ensures Later(s, x, s1) && Inv(s1, Closed) && p == Picks(s, c, k, limit)
    ensures GoesOn(s1, c, limit, p) || p.0 == s1
  {
    PickLater(s, c, k, x);
    if Pick(s, c, k).1 { PicksOn(s, c, k, limit); } else { PicksMore(s, c, k, limit); }
    s1, p := Pick(s, c, k).0, Picks(s, c, k, limit);
  }

  lemma PicksNoneLater(s: State, c: ConnId, k: nat, limit: nat, x: MsgId)
    requires Inv(s, Closed) && Picked(s, c, k) && (limit == 0 || k == |s.clients[c]|)
    ensures Later(s, x, Picks(s, c, k, limit).0)
  {
    PicksStop(s, c, k, limit);
    SameOld(s.hist, s.hist);
  }

  lemma {:induction false} PicksMoreLater(s: State, c: ConnId, k: nat, limit: nat, x: MsgId)
    requires Inv(s, Closed) && Picked(s, c, k) && limit > 0 && k < |s.clients[c]|
    ensures Later(s, x, Picks(s, c, k, limit).0)
    decreases limit, 0
  {
    var s1, p := PicksRound(s, c, k, limit, x);
    SameOld(s1.hist, s1.hist);
    if p.0 != s1 {
      var k1: nat, limit1: nat :| limit1 < limit && Picked(s1, c, k1) && p == Picks(s1, c, k1, limit1);
      PicksLater(s1, c, k1, limit1, x);
    }
    Both(s, x, s1, p.0);
  }

  lemma {:induction false} PicksLater(s: State, c: ConnId, k: nat, limit: nat, x: MsgId)
    requires Inv(s, Closed) && Picked(s, c, k)
    ensures Later(s, x, Picks(s, c, k, limit).0)
    decreases limit, 1
  {
    if limit == 0 || k == |s.clients[c]| {
      PicksNoneLater(s, c, k, limit, x);
    } else {
      PicksMoreLater(s, c, k, limit, x);
    }
  }

  lemma ReleaseLater(s: State, c: ConnId, k: nat, m: nat, empty: bool, x: MsgId)
    requires Inv(s, Closed) && Picked(s, c, m) && k < m
    requires if empty then s.clients[c][k] in s.hist.parts else k == 0
    ensures Later(s, x, ReleaseOne(s, c, k, m, empty))
  {
    SameOld(s.hist, ReleaseOne(s, c, k, m, empty).hist);
  }

  lemma {:induction false} ReleasesLater(s: State, c: ConnId, k: nat, m: nat, full: nat, zero: set<MsgId>, x: MsgId)
    requires Inv(s, Closed) && Picked(s, c, m) && k <= m && full <= m - k && (full > 0 ==> k == 0)
    requires zero <= s.hist.parts
    ensures Later(s, x, Releases(s, c, k, m, full, zero))
    decreases m - k
  {
    SameOld(s.hist, s.hist);
    if k < m {
      if full > 0 {
        var s1 := ReleaseOne(s, c, 0, m, s.clients[c][0] in zero);
        ReleaseLater(s, c, 0, m, s.clients[c][0] in zero, x);
        ReleasesLater(s1, c, 0, m - 1, full - 1, zero, x);
        Both(s, x, s1, Releases(s1, c, 0, m - 1, full - 1, zero));
      } else if s.clients[c][k] in zero {
        var s1 := ReleaseOne(s, c, k, m, true);
        ReleaseLater(s, c, k, m, true, x);
        ReleasesLater(s1, c, k, m - 1, 0, zero, x);
        Both(s, x, s1, Releases(s1, c, k, m - 1, 0, zero));
      } else {
        ReleasesLater(s, c, k + 1, m, 0, zero, x);
      }
    }
  }

  lemma AdvanceLater(s: State, c: ConnId, part: nat, x: MsgId)
    requires Inv(s, Closed) && c in s.clients
    ensures Later(s, x, Advance(s, c, part))
  {
    SameOld(s.hist, s.hist);
    if s.clients[c] != [] { HeadAlive(s, c); }
  }

  lemma WriteLater(s: State, c: ConnId, limit: nat, full: nat, zero: set<MsgId>, part: nat, x: MsgId)
    requires Inv(s, Closed) && c in s.clients
    ensures Later(s, x, ClientSend(s, c, limit, full, zero, part))
  {
    QueueLive(s, c, Closed);
    var p := Picks(s, c, 0, limit);
    var full' := if full <= p.1 then full else p.1;
    PicksLater(s, c, 0, limit, x);
    ReleasesLater(p.0, c, 0, p.1, full', zero * p.0.hist.parts, x);
    var s1 := Releases(p.0, c, 0, p.1, full', zero * p.0.hist.parts);
    Both(s, x, p.0, s1);
    AdvanceLater(s1, c, part, x);
    Both(s, x, s1, Advance(s1, c, part));
  }

  // ---------- Runs ----------

  lemma ClientOpensLater(s: State, c: ConnId, x: MsgId)
    requires Good(s) && Enabled(s, ClientOpens(c))
    ensures Later(s, x, Step(s, ClientOpens(c)))
  {
  }

  lemma LocalLater(s: State, c: ConnId, x: MsgId)
    requires Inv(s, Closed) && c in s.clients
    ensures Later(s, x, RecvLocal(s, c))
  {
    Fresh(s, Closed);
    OlderAdd(s.hist, SingleReq(c, false).(done := true, peer := Some(Local)), s.nextId);
  }

  lemma StepLater(s: State, e: Event, x: MsgId)
    requires Good(s) && Enabled(s, e)
    ensures Later(s, x, Step(s, e))
  {
    match e
    case ClientOpens(c) => ClientOpensLater(s, c, x);
    case ServerOpens(sid) => SameOld(s.hist, Step(s, e).hist);
    case Discarded => SameOld(s.hist, Step(s, e).hist);
    case NoForward(c) => LocalLater(s, c, x);
    case Single(c, noreply, route) => SingleLater(s, c, noreply, route, x);
    case Vector(c, routes) => VectorLater(s, c, routes, x);
    case Greeting(c, sid, head, now) => HandshakeLater(s, c, sid, head, now, Closed, x);
    case Sent(sid) => SendLater(s, sid, x);
    case Response(sid, y, bad) => RespondLater(s, sid, y, bad, x);
    case ServerCloses(sid, err) => CloseServerLater(s, sid, err, x);
    case ClientCloses(c) => CloseClientLater(s, c, x);
    case Written(c, limit, full, zero, part) => WriteLater(s, c, limit, full, zero, part, x);
    case Timeout(nows) => TimeoutsLater(s, nows, x);
  }

  lemma {:induction false} RunLater(s: State, es: seq<Event>, x: MsgId)
    requires Good(s) && Possible(s, es)
    ensures Later(s, x, Run(s, es))
    decreases |es|
  {
    SameOld(s.hist, s.hist);
    if es != [] {
      StepLater(s, es[0], x);
      RunLater(Step(s, es[0]), es[1..], x);
      Both(s, x, Step(s, es[0]), Run(s, es));
    }
  }

  /** Between any two states of a run, a request that is live in both is the same request, and no mark it
      had has been cleared: done, error, swallow, ferror and fdone, the mark of an answered vector. */
  lemma MarksStay(timeout: int, before: seq<Event>, after: seq<Event>, x: MsgId)
    requires Possible(Start(timeout), before) && Possible(Run(Start(timeout), before), after)
    requires x in Run(Start(timeout), before).reqs && x in Run(Run(Start(timeout), before), after).reqs
    ensures Grew(Run(Start(timeout), before).reqs[x], Run(Run(Start(timeout), before), after).reqs[x])
  {
    var s := Run(Start(timeout), before);
    RunLater(s, after, x);
    Unfold(s, Closed);
    assert ReqOk(s, x, s.reqs[x]);
  }

  /** A request that is gone never comes back. */
  lemma GoneForGood(timeout: int, before: seq<Event>, after: seq<Event>, x: MsgId)
    requires Possible(Start(timeout), before) && Possible(Run(Start(timeout), before), after)
    requires x in Run(Start(timeout), before).hist.freed
    ensures x !in Run(Run(Start(timeout), before), after).reqs
  {
    var s := Run(Start(timeout), before);
    RunLater(s, after, x);
    Unfold(s, Closed);
    assert Known(s.hist, x);
  }
}
