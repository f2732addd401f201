/** Runs of the pipeline: any order of events, and what holds after all of them. */
module PipelineRuns {
  import opened Basics
  import opened Seqs
  import opened PipelineState
  import opened PipelineInv
  import opened PipelineQueues
  import opened PipelineMoves
  import opened PipelineConns
  import opened PipelineHandlers
  import opened PipelineServer
  import opened PipelineClient

  datatype Event =
    | ClientOpens(c: ConnId)
    | ServerOpens(sid: ConnId)
    | Discarded                                              // an empty or quit request
    | NoForward(c: ConnId)                                   // answered by the proxy itself
    | Single(c: ConnId, noreply: bool, route: Route)
    | Vector(c: ConnId, routes: seq<Route>)
    | Greeting(c: ConnId, sid: ConnId, head: bool, now: int) // a handshake with a server
    | Sent(sid: ConnId)                                      // a request was written to a server
    | Response(sid: ConnId, x: int, bad: bool)               // the backend answered
    | ServerCloses(sid: ConnId, err: int)                    // also after stray and failure responses
    | ClientCloses(c: ConnId)
    | Written(c: ConnId, limit: nat, full: nat, zero: set<MsgId>, part: nat)
    | Timeout(nows: seq<int>)

  ghost predicate Good(s: State) {
    Inv(s, Closed) && s.servers.Keys <= s.hist.wire.Keys
  }

  ghost predicate Enabled(s: State, e: Event) {
    match e
    case ClientOpens(c) => c !in s.hist.arrived
    case ServerOpens(sid) => sid !in s.servers
    case Discarded => true
    case NoForward(c) => c in s.clients
    case Single(c, _, route) => c in s.clients && Reachable(s, route)
    case Vector(c, routes) => c in s.clients && routes != [] && AllReachable(s, routes)
    case Greeting(_, sid, _, _) => sid in s.servers
    case Sent(sid) => sid in s.servers
    case Response(sid, _, _) => sid in s.servers && sid in s.hist.wire && s.hist.wire[sid] != []
    case ServerCloses(sid, _) => sid in s.servers
    case ClientCloses(c) => c in s.clients
    case Written(c, _, _, _, _) => c in s.clients
    case Timeout(nows) => |s.timers| < |nows| && forall a, b :: 0 <= a < b < |nows| ==> nows[a] <= nows[b]
  }

  function Step(s: State, e: Event): (s': State)
    requires Good(s) && Enabled(s, e)
    ensures Good(s') && s'.timeout == s.timeout
  {
    match e
    case ClientOpens(c) => InvOpenClient(s, c); OpenClient(s, c)
    case ServerOpens(sid) => InvOpenServer(s, sid); OpenServer(s, sid)
    case Discarded => InvFiltered(s, Closed); Filtered(s)
    case NoForward(c) => RecvLocal(s, c)
    case Single(c, noreply, route) => RecvSingle(s, c, noreply, route)
    case Vector(c, routes) => RecvVector(s, c, routes)
    case Greeting(c, sid, head, now) => Handshake(s, c, sid, head, now, Closed)
    case Sent(sid) => ServerSend(s, sid)
    case Response(sid, x, bad) => Respond(s, sid, x, bad)
    case ServerCloses(sid, err) => CloseServer(s, sid, err)
    case ClientCloses(c) => ClientClose(s, c)
    case Written(c, limit, full, zero, part) => ClientSend(s, c, limit, full, zero, part)
    case Timeout(nows) => Timeouts(s, nows).0
  }

  /** The events can happen one after the other. */
  ghost predicate Possible(s: State, es: seq<Event>)
    requires Good(s)
    decreases |es|
  {
    es == [] || (Enabled(s, es[0]) && Possible(Step(s, es[0]), es[1..]))
  }

  function Run(s: State, es: seq<Event>): (s': State)
    requires Good(s) && Possible(s, es)
    ensures Good(s') && s'.timeout == s.timeout
    decreases |es|
  {
    if es == [] then s else Run(Step(s, es[0]), es[1..])
  }

  function Start(timeout: int): (s: State)
    ensures Good(s) && s.timeout == timeout
  {
    var s := State(map[], map[], map[], [], timeout, 0, 1, NoHistory);
    assert Parts(s, Closed);
    s
  }

  // ---------- Replies come in the order of the requests ----------

  lemma {:induction false} WithoutTwice(q: seq<MsgId>, a: set<MsgId>, b: set<MsgId>)
    requires a <= b
    ensures Without(Without(q, a), b) == Without(q, b)
  {
    if q != [] {
      var q', last := q[..|q| - 1], q[|q| - 1];
      WithoutTwice(q', a, b);
      if last !in a { WithoutConcat(Without(q', a), [last], b); }
      assert Without([last], b) == if last in b then [] else [last];
    }
  }

  /**
    After any run, the replies a client has been sent, in the order they were sent, followed by the
    requests still in its queue, are its reply-expecting requests in the order they arrived: none is
    skipped, none answered twice, none out of order. Fragments, which are answered through the
    request they were split from, are left out on both sides. A client that has closed was sent
    the replies of the requests that arrived first.
  */
  lemma RepliesInOrder(timeout: int, es: seq<Event>, c: ConnId)
    requires Possible(Start(timeout), es)
    requires c in Run(Start(timeout), es).hist.arrived
    ensures var s := Run(Start(timeout), es);
      var arrived, parts := s.hist.arrived[c], s.hist.parts;
      && c in s.hist.sent
      && var sent := s.hist.sent[c];
      && (c in s.clients ==> Without(arrived, parts) == Without(sent, parts) + Without(s.clients[c], parts))
      && Without(sent, parts) <= Without(arrived, parts)
      && NoDup(arrived)
  {
    var s := Run(Start(timeout), es);
    Unfold(s, Closed);
    assert LoggedAt(s, c);
    LogInOrder(s.hist.arrived[c], s.hist.sent[c], QueueOf(s, c), s.hist.empty + s.hist.dropped, s.nextId, s.hist.parts);
  }

  lemma LogInOrder(arrived: seq<MsgId>, sent: seq<MsgId>, queue: Option<seq<MsgId>>, gone: set<MsgId>,
                   nextId: MsgId, parts: set<MsgId>)
    requires ClientLog(arrived, sent, queue, gone, nextId) && gone <= parts
    ensures queue.Some? ==> Without(arrived, parts) == Without(sent, parts) + Without(queue.value, parts)
    ensures Without(sent, parts) <= Without(arrived, parts)
  {
    var all := Without(arrived, gone);
    WithoutTwice(arrived, gone, parts);
    var rest := if queue.Some? then queue.value else all[|sent|..];
    assert all == sent + rest;
    WithoutConcat(sent, rest, parts);
  }

  // ---------- Replies are the right ones ----------

  /**
    After any run, a reply that was written for a request is, unless it is an error, the one the
    backend gave to that very request; the reply of a split request is made of the answers to its
    own fragments, in their order; and only a request that was not forwarded is answered locally.
  */
  lemma RepliesMatch(timeout: int, es: seq<Event>, id: MsgId)
    requires Possible(Start(timeout), es)
    requires id in Run(Start(timeout), es).hist.replies
    ensures var h := Run(Start(timeout), es).hist;
      match h.replies[id]
      case Backend(x) => id in h.answers && h.answers[id] == x
      case Coalesced(ps) =>
        && id in h.vectors && |ps| == |h.vectors[id]|
        && forall i :: 0 <= i < |ps| ==>
             h.vectors[id][i] in h.answers && ps[i] == Some(h.answers[h.vectors[id][i]])
      case Local => id in h.local
      case Failure(_) => true
  {
    var s := Run(Start(timeout), es);
    Unfold(s, Closed);
    assert ReplyFits(s.hist, id, s.hist.replies[id]);
  }

  // ---------- Every request has one owner ----------

  /** The request stands in one queue of connection sid, once, and in no other connection's. */
  ghost predicate OnlyAt(s: State, id: MsgId, sid: ConnId) {
    && sid in s.servers && InServer(s.servers[sid], id)
    && (id in s.servers[sid].inq <==> id !in s.servers[sid].outq)
    && NoDup(s.servers[sid].inq) && NoDup(s.servers[sid].outq)
    && (forall t :: t in s.servers && t != sid ==> !InServer(s.servers[t], id))
  }

  /**
    After any run, a live request that is not done stands in the queues of exactly one server
    connection, in one of them and once; one that is done stands in none, and in its client's queue.
    A request that is not done stands in its client's queue unless it is swallowed or expects no
    reply, and then it stands in no client queue.
  */
  lemma OneOwner(timeout: int, es: seq<Event>, id: MsgId)
    requires Possible(Start(timeout), es)
    requires id in Run(Start(timeout), es).reqs
    ensures var s := Run(Start(timeout), es);
      var r := s.reqs[id];
      && (r.done ==> forall sid :: sid in s.servers ==> !InServer(s.servers[sid], id))
      && (!r.done ==> r.at.Some? && OnlyAt(s, id, r.at.value))
      && (r.done || !(r.swallow || r.noreply) ==> InClient(s, r, id))
      && (r.swallow || r.noreply ==> forall c :: c in s.clients ==> id !in s.clients[c])
  {
    var s := Run(Start(timeout), es);
    Unfold(s, Closed);
    var r := s.reqs[id];
    assert ReqOk(s, id, r);
    forall sid | sid in s.servers && r.at != Some(sid) ensures !InServer(s.servers[sid], id) {
      assert ServerOk(s.reqs, sid, s.servers[sid]);
    }
    if r.at.Some? { assert ServerOk(s.reqs, r.at.value, s.servers[r.at.value]); }
    forall c | c in s.clients && (r.swallow || r.noreply) ensures id !in s.clients[c] {
      assert ClientOk(s.reqs, c, s.clients[c]);
    }
  }

  /** After any run, every entry of a queue and of the timeout tree is a live request. */
  lemma NothingRecycledIsNamed(timeout: int, es: seq<Event>, id: MsgId)
    requires Possible(Start(timeout), es)
    requires var s := Run(Start(timeout), es);
      || (exists c :: c in s.clients && id in s.clients[c])
      || (exists sid :: sid in s.servers && InServer(s.servers[sid], id))
      || Armed(s.timers, id)
    ensures id in Run(Start(timeout), es).reqs && id !in Run(Start(timeout), es).hist.freed
  {
    var s := Run(Start(timeout), es);
    Unfold(s, Closed);
    if c :| c in s.clients && id in s.clients[c] {
      assert ClientOk(s.reqs, c, s.clients[c]);
    } else if sid :| sid in s.servers && InServer(s.servers[sid], id) {
      assert ServerOk(s.reqs, sid, s.servers[sid]);
    } else {
      var t :| t in s.timers && t.id == id;
      assert TimerOk(s.reqs, t);
    }
  }

  /** After any run, every request there ever was is either live or was recycled exactly once. */
  lemma RecycledOnce(timeout: int, es: seq<Event>, id: MsgId)
    requires Possible(Start(timeout), es)
    requires 0 <= id < Run(Start(timeout), es).nextId
    ensures var s := Run(Start(timeout), es);
      (id in s.reqs <==> id !in s.hist.freed) && multiset(s.hist.freed)[id] <= 1
  {
    var s := Run(Start(timeout), es);
    Unfold(s, Closed);
    OccursOnce(s.hist.freed, id);
  }

  lemma {:induction false} OccursOnce(q: seq<MsgId>, x: MsgId)
    requires NoDup(q)
    ensures multiset(q)[x] <= 1 && (multiset(q)[x] == 1 <==> x in q)
  {
    if q != [] {
      var q' := q[..|q| - 1];
      OccursOnce(q', x);
      assert q == q' + [q[|q| - 1]];
    }
  }

  // ---------- Vectors are answered once, when all members are done ----------

  /** After any run, a member of a vector that is marked done has all its fellow members in the queue
      done and marked too, and post_coalesce was called at most once per vector. */
  lemma LatchHonest(timeout: int, es: seq<Event>, c: ConnId, i: nat, j: nat)
    requires Possible(Start(timeout), es)
    requires var s := Run(Start(timeout), es);
      && c in s.clients && i < |s.clients[c]| && j < |s.clients[c]|
      && s.clients[c][i] in s.reqs && s.clients[c][j] in s.reqs
      && s.reqs[s.clients[c][i]].fragId == s.reqs[s.clients[c][j]].fragId
      && s.reqs[s.clients[c][i]].fdone
    ensures var s := Run(Start(timeout), es);
      s.reqs[s.clients[c][j]].done && s.reqs[s.clients[c][j]].fdone && NoDup(s.hist.coalesced)
  {
    var s := Run(Start(timeout), es);
    Unfold(s, Closed);
    var q := s.clients[c];
    assert QueueOk(s.reqs, s.hist, q, Closed);
    assert MemberOk(s.reqs, s.hist, q, q[j], Closed);
  }

  /** After any run, post_coalesce was called exactly once for a split request in a client's queue that is
      marked done, and never for one that is not. */
  lemma CoalescedOnce(timeout: int, es: seq<Event>, c: ConnId, i: nat)
    requires Possible(Start(timeout), es)
    requires var s := Run(Start(timeout), es);
      && c in s.clients && i < |s.clients[c]| && s.clients[c][i] in s.reqs && s.clients[c][i] !in s.hist.parts
    ensures var s := Run(Start(timeout), es);
      multiset(s.hist.coalesced)[s.clients[c][i]] == if s.reqs[s.clients[c][i]].fdone then 1 else 0
  {
    var s := Run(Start(timeout), es);
    Unfold(s, Closed);
    var q := s.clients[c];
    assert QueueOk(s.reqs, s.hist, q, Closed);
    assert MemberOk(s.reqs, s.hist, q, q[i], Closed);
    OccursOnce(s.hist.coalesced, q[i]);
  }

  /** After any run, post_coalesce was called exactly once for every split request that has been replied
      to. */
  lemma CoalescedBeforeReply(timeout: int, es: seq<Event>, o: MsgId)
    requires Possible(Start(timeout), es)
    requires var h := Run(Start(timeout), es).hist; o in h.replies && o in h.vectors
    ensures multiset(Run(Start(timeout), es).hist.coalesced)[o] == 1
  {
    var s := Run(Start(timeout), es);
    Unfold(s, Closed);
    assert ReplyFits(s.hist, o, s.hist.replies[o]);
    OccursOnce(s.hist.coalesced, o);
  }

  /** After any run, the members of a vector stand next to each other in their client's queue. */
  lemma VectorsContiguous(timeout: int, es: seq<Event>, c: ConnId, i: nat, k: nat, j: nat)
    requires Possible(Start(timeout), es)
    requires var s := Run(Start(timeout), es);
      && c in s.clients && i < k < j < |s.clients[c]|
      && s.clients[c][i] in s.reqs && s.clients[c][j] in s.reqs
      && s.reqs[s.clients[c][i]].fragId == s.reqs[s.clients[c][j]].fragId != 0
    ensures var s := Run(Start(timeout), es);
      s.clients[c][k] in s.reqs && s.reqs[s.clients[c][k]].fragId == s.reqs[s.clients[c][i]].fragId
  {
    var s := Run(Start(timeout), es);
    Unfold(s, Closed);
    assert QueueOk(s.reqs, s.hist, s.clients[c], Closed);
  }

  // ---------- Timeouts ----------

  /** After any run in which timeouts are on, core_timeout leaves no request waiting past its deadline:
      whoever still waits has a timeout later than every reading of the clock it took. */
  lemma NoneWaitsTooLong(timeout: int, es: seq<Event>, nows: seq<int>, id: MsgId)
    requires Possible(Start(timeout), es)
    requires Enabled(Run(Start(timeout), es), Timeout(nows))
    requires timeout > 0
    requires var r := Timeouts(Run(Start(timeout), es), nows);
      id in r.0.reqs && !r.0.reqs[id].done && !r.0.reqs[id].noreply
    ensures var r := Timeouts(Run(Start(timeout), es), nows);
      exists t :: t in r.0.timers && t.id == id && t.conn in r.0.servers
        && r.0.reqs[id].at == Some(t.conn) && forall j :: 0 <= j < r.1 ==> nows[j] < t.deadline
  {
    var s := Run(Start(timeout), es);
    var r := Timeouts(s, nows);
    var t := WaitingTimer(r.0, id);
    forall j | 0 <= j < r.1 ensures nows[j] < t.deadline { NothingOverdue(s, nows, t, j); }
  }

  /** After any run, every entry of the timeout tree is a live request, and one that is not done is in a
      queue of the open connection the entry names. */
  lemma TimersNameTheirConnection(timeout: int, es: seq<Event>, t: Timer)
    requires Possible(Start(timeout), es)
    requires t in Run(Start(timeout), es).timers
    ensures var s := Run(Start(timeout), es);
      && t.id in s.reqs
      && (!s.reqs[t.id].done ==> t.conn in s.servers && InServer(s.servers[t.conn], t.id))
  {
    var s := Run(Start(timeout), es);
    Unfold(s, Closed);
    assert TimerOk(s.reqs, t);
    assert ReqOk(s, t.id, s.reqs[t.id]);
  }

  lemma WaitingTimer(s: State, id: MsgId) returns (t: Timer)
    requires Good(s) && s.timeout > 0 && id in s.reqs && !s.reqs[id].done && !s.reqs[id].noreply
    ensures t in s.timers && t.id == id && t.conn in s.servers && s.reqs[id].at == Some(t.conn)
  {
    Unfold(s, Closed);
    assert ReqOk(s, id, s.reqs[id]);
    assert Armed(s.timers, id);
    t :| t in s.timers && t.id == id;
    assert TimerOk(s.reqs, t);
  }
}
