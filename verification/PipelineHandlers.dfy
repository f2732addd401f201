/**
  The event handlers as functions on the state. A handler is given a state that satisfies the
  invariant and returns one that does; looking up a request that has been recycled would be a
  failed precondition.
*/
module PipelineHandlers {
  import opened Basics
  import opened Seqs
  import opened PipelineState
  import opened PipelineInv
  import opened PipelineQueues
  import opened PipelineMoves
  import opened PipelineFlags
  import opened PipelineConns

  const EINVAL := 22

  lemma Entry(s: State, c: ConnId, id: MsgId, open: Open)
    requires Inv(s, open) && c in s.clients && id in s.clients[c]
    ensures id in s.reqs && s.reqs[id].client == c && !s.reqs[id].swallow && !s.reqs[id].noreply
    ensures Live(s.reqs, s.clients[c]) && NoDup(s.clients[c])
    ensures QueueOk(s.reqs, s.hist, s.clients[c], open) && MemberOk(s.reqs, s.hist, s.clients[c], id, open)
    ensures ReqOk(s, id, s.reqs[id]) && PairedAt(s.hist, id, s.reqs[id])
  {
    Unfold(s, open);
    var q := s.clients[c];
    assert ClientOk(s.reqs, c, q);
    var i :| 0 <= i < |q| && q[i] == id;
    assert MemberOk(s.reqs, s.hist, q, q[i], open);
  }

  // ---------- req_done and req_error ----------

  /** A request is done when it was answered, and a member of a vector when all members were. */
  predicate IsDone(reqs: map<MsgId, Req>, q: seq<MsgId>, id: MsgId)
    requires id in reqs && Live(reqs, q)
  {
    var r := reqs[id];
    r.done && (r.fragId == 0 || r.fdone || (r.nfragDone >= r.nfrag && AllDone(reqs, q, r.fragId)))
  }

  /** The owner of a vector that is about to be latched. */
  lemma OwnerOf(s: State, c: ConnId, id: MsgId, open: Open)
    requires Inv(s, open) && c in s.clients && id in s.clients[c] && id in s.reqs
    requires open.Closed? || id == s.clients[c][0]
    requires Unlatched(s.reqs[id]) && s.reqs[id].nfragDone >= s.reqs[id].nfrag
    requires Live(s.reqs, s.clients[c]) && AllDone(s.reqs, s.clients[c], s.reqs[id].fragId)
    ensures s.reqs[id].fragOwner.Some?
    ensures var o := s.reqs[id].fragOwner.value;
      CanLatch(s, c, o, open) && s.reqs[o].fragId == s.reqs[id].fragId
  {
    Unfold(s, open);
    Entry(s, c, id, open);
    var q := s.clients[c];
    if id in s.hist.parts {
      var o := s.reqs[id].fragOwner.value;
      var i, p :| 0 <= i < |q| && 0 <= p < |q| && q[i] == id && q[p] == o;
      OwnerBefore(s.reqs, s.hist.parts, q, p, i);
    }
  }

  function ReqDone(s: State, c: ConnId, id: MsgId, ghost open: Open): (res: (State, bool))
    requires Inv(s, open) && c in s.clients && id in s.clients[c]
    requires open.Closed? || id == s.clients[c][0]
    ensures Inv(res.0, open)
    ensures res.0 == s.(reqs := res.0.reqs, hist := s.hist.(coalesced := res.0.hist.coalesced))
    ensures id in res.0.reqs && (res.1 ==> res.0.reqs[id].done && !Unlatched(res.0.reqs[id]))
  {
    Entry(s, c, id, open);
    var q := s.clients[c];
    if !IsDone(s.reqs, q, id) then (s, false)
    else if !Unlatched(s.reqs[id]) then (s, true)
    else
      OwnerOf(s, c, id, open);
      var o := s.reqs[id].fragOwner.value;
      InvLatch(s, c, o, open);
      (Latch(s, q, s.reqs[id].fragId, o), true)
  }

  /** Some member of vector f in the queue failed. */
  predicate AnyError(reqs: map<MsgId, Req>, q: seq<MsgId>, f: nat)
    requires Live(reqs, q)
  {
    exists i :: 0 <= i < |q| && reqs[q[i]].fragId == f && reqs[q[i]].error
  }

  predicate IsError(reqs: map<MsgId, Req>, q: seq<MsgId>, id: MsgId)
    requires id in reqs && Live(reqs, q)
  {
    var r := reqs[id];
    r.error || (r.fragId != 0 && (r.ferror || AnyError(reqs, q, r.fragId)))
  }

  /** A response, or the failure of a request, is announced to its client. */
  function Notify(s: State, c: ConnId, ghost open: Open): (s': State)
    requires Inv(s, open) && c in s.clients
    ensures Inv(s', open)
    ensures s' == s.(reqs := s'.reqs, hist := s.hist.(coalesced := s'.hist.coalesced))
  {
    if s.clients[c] == [] then s else ReqDone(s, c, s.clients[c][0], open).0
  }

  // ---------- Requests come in ----------

  /** Where server_pool_conn sends a request; `auth` says a handshake has to go ahead of it. */
  datatype Route = To(sid: ConnId, auth: bool, now: int) | Nowhere(err: int)

  ghost predicate Reachable(s: State, route: Route) {
    route.To? ==> route.sid in s.servers
  }

  /** Nothing but requests, queues and timeouts moved. */
  ghost predicate SameConns(s: State, s': State) {
    && s'.servers.Keys == s.servers.Keys && s'.clients.Keys == s.clients.Keys && s'.hist.wire == s.hist.wire
    && s'.timeout == s.timeout
  }

  function HandshakeReq(c: ConnId, sid: ConnId): Req {
    Req(c, false, true, false, false, 0, false, false, 0, None, 0, 0, None, Some(sid), 0)
  }

  /** A request of the proxy's own goes to a server; its answer will be swallowed. */
  function Handshake(s: State, c: ConnId, sid: ConnId, head: bool, now: int, ghost open: Open): (s': State)
    requires Inv(s, open) && sid in s.servers
    ensures Inv(s', open) && SameConns(s, s') && s'.clients == s.clients
    ensures s.nextId < s'.nextId && s'.nextFrag == s.nextFrag
    ensures forall x :: x in s.reqs ==> x in s'.reqs && s'.reqs[x] == s.reqs[x]
  {
    Fresh(s, open);
    InvAdd(s, HandshakeReq(c, sid), head, now, open);
    Add(s, HandshakeReq(c, sid), head, now)
  }

  /** A request that was filtered out, or that nobody waits for and that cannot be sent. */
  function Filtered(s: State): (s': State) {
    s.(nextId := s.nextId + 1, hist := s.hist.(freed := s.hist.freed + [s.nextId]))
  }

  lemma InvFiltered(s: State, open: Open)
    requires Inv(s, open)
    ensures Inv(Filtered(s), open)
  {
    Unfold(s, open);
    var s' := Filtered(s);
    Fresh(s, open);
    forall x | x in s'.reqs ensures ReqOk(s', x, s'.reqs[x]) { assert ReqOk(s, x, s.reqs[x]); }
    FilteredRest(s, open);
  }

  lemma FilteredRest(s: State, open: Open)
    requires Queues(s, open) && Paired(s) && Timed(s) && Logged(s) && Ids(s)
    requires s.nextId !in s.reqs && s.nextId !in s.hist.freed
    ensures var s' := Filtered(s); Queues(s', open) && Paired(s') && Timed(s') && Logged(s') && Ids(s')
  {
    var s' := Filtered(s);
    forall d | d in s'.clients ensures QueueOk(s'.reqs, s'.hist, s'.clients[d], open) {
      QueueFlags(s.reqs, s.hist, s.clients[d], open, s'.reqs, s'.hist, open);
    }
    FilteredPaired(s);
    FilteredIds(s);
  }

  lemma FilteredPaired(s: State)
    requires Paired(s) && Timed(s)
    ensures Paired(Filtered(s)) && Timed(Filtered(s))
  {
    var s' := Filtered(s);
    forall x | x in s'.reqs ensures PairedAt(s'.hist, x, s'.reqs[x]) { assert PairedAt(s.hist, x, s.reqs[x]); }
    forall x | x in s'.hist.replies ensures ReplyFits(s'.hist, x, s'.hist.replies[x]) {
      ReplyStillFits(s.hist, s'.hist, x, s.hist.replies[x]);
    }
  }

  lemma FilteredIds(s: State)
    requires Logged(s) && Ids(s) && s.nextId !in s.reqs && s.nextId !in s.hist.freed
    ensures Logged(Filtered(s)) && Ids(Filtered(s))
  {
    var s' := Filtered(s);
    forall x | Known(s'.hist, x) ensures 0 <= x < s'.nextId {
      if x != s.nextId { assert Known(s.hist, x); }
    }
    forall o | o in s'.hist.vectors ensures VectorKnown(s', o) { assert VectorKnown(s, o); }
    forall d | d in s'.hist.arrived ensures LoggedAt(s', d) { assert LoggedAt(s, d); }
  }

  /** The record of a request that has not been sent anywhere yet. */
  ghost predicate Unsent(r: Req) {
    !r.swallow && !r.done && !r.error && r.peer.None? && r.at.None? && r.off == 0
  }

  function Routed(r: Req, route: Route): Req {
    match route
    case To(sid, _, _) => r.(at := Some(sid))
    case Nowhere(err) => r.(done := true, error := true, err := err)
  }

  /** A request on its own, or the next fragment of the open vector. */
  ghost predicate Forwardable(s: State, r: Req, open: Open) {
    && Unsent(r) && r.client in s.clients && r.fragId < s.nextFrag
    && ( || (IsSingle(r) && open.Closed?)
         || (open.Opened? && open.owner in s.reqs && !r.noreply && r.client == s.reqs[open.owner].client &&
             IsFragment(r, open.owner, s.reqs[open.owner].fragId)))
  }

  function Left(open: Open): Open {
    if open.Opened? && open.rest > 1 then Opened(open.owner, open.rest - 1) else Closed
  }

  lemma ForwardableFits(s: State, r: Req, route: Route, open: Open)
    requires Inv(s, open) && Forwardable(s, r, open) && Reachable(s, route)
    requires route.To? || !r.noreply
    ensures NewOk(s, Routed(r, route)) && Fits(s, Routed(r, route), open)
    ensures After(s, Routed(r, route), open) == Left(open)
  {
    Unfold(s, open);
    if open.Opened? { assert ReqOk(s, open.owner, s.reqs[open.owner]); }
  }

  function ForwardTo(s: State, r: Req, sid: ConnId, now: int, ghost open: Open): (s': State)
    requires Inv(s, open) && Forwardable(s, r, open) && sid in s.servers
    ensures Inv(s', Left(open)) && SameConns(s, s')
  {
    ForwardableFits(s, r, To(sid, false, now), open);
    InvAdd(s, r.(at := Some(sid)), false, now, open);
    AddHistoryKeeps(s.hist, r.(at := Some(sid)), s.nextId);
    Add(s, r.(at := Some(sid)), false, now)
  }

  function AddFailed(s: State, r: Req, err: int, ghost open: Open): (s': State)
    requires Inv(s, open) && Forwardable(s, r, open) && !r.noreply
    ensures Inv(s', Left(open)) && SameConns(s, s')
  {
    ForwardableFits(s, r, Nowhere(err), open);
    InvAdd(s, Routed(r, Nowhere(err)), false, 0, open);
    AddHistoryKeeps(s.hist, Routed(r, Nowhere(err)), s.nextId);
    Add(s, Routed(r, Nowhere(err)), false, 0)
  }

  lemma NoreplyIsSingle(s: State, r: Req, open: Open)
    requires Forwardable(s, r, open) && r.noreply
    ensures open.Closed? && Left(open) == Closed
  {
  }

  /** req_forward_error: the request is done and in error. */
  function ForwardError(s: State, r: Req, err: int, ghost open: Open): (s': State)
    requires Inv(s, open) && Forwardable(s, r, open)
    ensures Inv(s', Left(open)) && SameConns(s, s')
  {
    if r.noreply then
      NoreplyIsSingle(s, r, open);
      InvFiltered(s, open);
      Filtered(s)
    else
      Notify(AddFailed(s, r, err, open), r.client, Left(open))
  }

  /** req_forward: the request enters the out queue of its client and the in queue of a server
      connection, or fails on the spot. */
  function Forward(s: State, r: Req, route: Route, ghost open: Open): (s': State)
    requires Inv(s, open) && Forwardable(s, r, open) && Reachable(s, route)
    ensures Inv(s', Left(open)) && SameConns(s, s')
  {
    match route
    case To(sid, auth, now) =>
      var s1 := if auth then Handshake(s, r.client, sid, false, now, open) else s;
      ForwardTo(s1, r, sid, now, open)
    case Nowhere(err) => ForwardError(s, r, err, open)
  }

  function SingleReq(c: ConnId, noreply: bool): Req {
    Req(c, noreply, false, false, false, 0, false, false, 0, None, 0, 0, None, None, 0)
  }

  /** A request that is forwarded as it is. */
  function RecvSingle(s: State, c: ConnId, noreply: bool, route: Route): (s': State)
    requires Inv(s, Closed) && c in s.clients && Reachable(s, route)
    ensures Inv(s', Closed) && SameConns(s, s')
  {
    Fresh(s, Closed);
    Forward(s, SingleReq(c, noreply), route, Closed)
  }

  /** A request the proxy answers itself (noforward). */
  function RecvLocal(s: State, c: ConnId): (s': State)
    requires Inv(s, Closed) && c in s.clients
    ensures Inv(s', Closed) && SameConns(s, s')
  {
    var r := SingleReq(c, false).(done := true, peer := Some(Local));
    Fresh(s, Closed);
    InvAdd(s, r, false, 0, Closed);
    Add(s, r, false, 0)
  }

  function OwnerReq(c: ConnId, id: MsgId, f: nat, n: nat): Req {
    Req(c, false, false, true, false, 0, false, false, f, Some(id), n, 0, Some(Local), None, 0)
  }

  function FragReq(c: ConnId, o: MsgId, f: nat): Req {
    Req(c, false, false, false, false, 0, false, false, f, Some(o), 0, 0, None, None, 0)
  }

  lemma FragFits(s: State, o: MsgId, n: nat)
    requires Inv(s, Opened(o, n))
    ensures o in s.reqs && Forwardable(s, FragReq(s.reqs[o].client, o, s.reqs[o].fragId), Opened(o, n))
  {
    Unfold(s, Opened(o, n));
    assert ReqOk(s, o, s.reqs[o]);
  }

  ghost predicate AllReachable(s: State, routes: seq<Route>) {
    forall i :: 0 <= i < |routes| ==> Reachable(s, routes[i])
  }

  lemma StillReachable(s: State, s': State, routes: seq<Route>)
    requires AllReachable(s, routes) && SameConns(s, s') && routes != []
    ensures AllReachable(s', routes) && AllReachable(s', routes[1..])
  {
    forall i | 0 <= i < |routes| ensures Reachable(s', routes[i]) { assert Reachable(s, routes[i]); }
  }

  /** The vector of owner o is open as long as fragments are left to forward. */
  function OpenFor(o: MsgId, routes: seq<Route>): Open {
    if routes == [] then Closed else Opened(o, |routes|)
  }

  lemma LeftFor(o: MsgId, routes: seq<Route>)
    requires routes != []
    ensures Left(OpenFor(o, routes)) == OpenFor(o, routes[1..])
  {
  }

  /** The fragments of the vector being received are forwarded one by one. */
  function Fragments(s: State, o: MsgId, routes: seq<Route>): (s': State)
    requires Inv(s, OpenFor(o, routes)) && AllReachable(s, routes)
    ensures Inv(s', Closed) && SameConns(s, s')
    decreases |routes|
  {
    if routes == [] then s
    else
      FragFits(s, o, |routes|);
      var s1 := Forward(s, FragReq(s.reqs[o].client, o, s.reqs[o].fragId), routes[0], Opened(o, |routes|));
      StillReachable(s, s1, routes);
      LeftFor(o, routes);
      Fragments(s1, o, routes[1..])
  }

  lemma FragmentsStep(s: State, o: MsgId, routes: seq<Route>)
    requires Inv(s, OpenFor(o, routes)) && AllReachable(s, routes) && routes != []
    ensures o in s.reqs && Forwardable(s, FragReq(s.reqs[o].client, o, s.reqs[o].fragId), Opened(o, |routes|))
    ensures var s1 := Forward(s, FragReq(s.reqs[o].client, o, s.reqs[o].fragId), routes[0], Opened(o, |routes|));
      && Inv(s1, OpenFor(o, routes[1..])) && AllReachable(s1, routes[1..])
      && Fragments(s, o, routes) == Fragments(s1, o, routes[1..])
  {
    FragFits(s, o, |routes|);
    var s1 := Forward(s, FragReq(s.reqs[o].client, o, s.reqs[o].fragId), routes[0], Opened(o, |routes|));
    StillReachable(s, s1, routes);
    LeftFor(o, routes);
  }

  lemma InvNextFrag(s: State)
    requires Inv(s, Closed)
    ensures Inv(s.(nextFrag := s.nextFrag + 1), Closed)
  {
    Unfold(s, Closed);
    FragApart(s, s.(nextFrag := s.nextFrag + 1));
  }

  lemma FragApart(s: State, s': State)
    requires Links(s) && Logged(s) && Ids(s) && s' == s.(nextFrag := s.nextFrag + 1)
    ensures Links(s') && Logged(s') && Ids(s')
  {
    forall x | x in s'.reqs ensures ReqOk(s', x, s'.reqs[x]) { assert ReqOk(s, x, s.reqs[x]); }
    forall o | o in s'.hist.vectors ensures VectorKnown(s', o) { assert VectorKnown(s, o); }
    forall d | d in s'.hist.arrived ensures LoggedAt(s', d) { assert LoggedAt(s, d); }
  }

  lemma FragIdsBelow(s: State)
    requires Inv(s, Closed)
    ensures 0 < s.nextFrag && forall id :: id in s.reqs ==> s.reqs[id].fragId < s.nextFrag
  {
    Unfold(s, Closed);
    assert forall id :: id in s.reqs ==> ReqOk(s, id, s.reqs[id]);
  }

  /** The owner of a new vector enters its client's queue. */
  function OpenVector(s: State, c: ConnId, routes: seq<Route>): (s': State)
    requires Inv(s, Closed) && c in s.clients && routes != [] && AllReachable(s, routes)
    ensures Inv(s', OpenFor(s.nextId, routes)) && AllReachable(s', routes) && SameConns(s, s')
  {
    InvNextFrag(s);
    var s1 := s.(nextFrag := s.nextFrag + 1);
    var r := OwnerReq(c, s.nextId, s.nextFrag, |routes|);
    Fresh(s1, Closed);
    FragIdsBelow(s);
    InvAdd(s1, r, false, 0, Closed);
    AddHistoryKeeps(s.hist, r, s.nextId);
    StillReachable(s, Add(s1, r, false, 0), routes);
    Add(s1, r, false, 0)
  }

  /** A request that is split: its owner is done at once, its fragments are forwarded. */
  function RecvVector(s: State, c: ConnId, routes: seq<Route>): (s': State)
    requires Inv(s, Closed) && c in s.clients && routes != [] && AllReachable(s, routes)
    ensures Inv(s', Closed) && SameConns(s, s')
  {
    Fragments(OpenVector(s, c, routes), s.nextId, routes)
  }
}
