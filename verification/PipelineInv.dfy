/** What every run of the pipeline keeps. */
module PipelineInv {
  import opened Basics
  import opened Seqs
  import opened PipelineState

  // ---------- Where requests are ----------

  predicate InServer(v: ServerConn, id: MsgId) {
    id in v.inq || id in v.outq
  }

  /** The entries of a client's out queue are live requests of that client, each once; only of the first one's
      reply may some bytes have been written. */
  ghost predicate ClientOk(reqs: map<MsgId, Req>, c: ConnId, q: seq<MsgId>) {
    && NoDup(q)
    && forall i :: 0 <= i < |q| ==>
         && q[i] in reqs && reqs[q[i]].client == c && !reqs[q[i]].noreply && !reqs[q[i]].swallow
         && (i > 0 ==> reqs[q[i]].off == 0)
  }

  /** The entries of a server connection's queues are live requests at that connection, each once. */
  ghost predicate ServerOk(reqs: map<MsgId, Req>, sid: ConnId, v: ServerConn) {
    && NoDup(v.inq) && NoDup(v.outq)
    && (forall id :: id in v.inq ==> id !in v.outq)
    && (forall i :: 0 <= i < |v.inq| ==> v.inq[i] in reqs && reqs[v.inq[i]].at == Some(sid))
    && (forall i :: 0 <= i < |v.outq| ==>
          v.outq[i] in reqs && reqs[v.outq[i]].at == Some(sid) && !reqs[v.outq[i]].noreply)
  }

  ghost predicate InClient(s: State, r: Req, id: MsgId) {
    r.client in s.clients && id in s.clients[r.client]
  }

  ghost predicate ReqOk(s: State, id: MsgId, r: Req) {
    && 0 <= id < s.nextId
    && r.fragId < s.nextFrag
    && (r.done <==> r.at.None?)
    && (r.error ==> r.done)
    && (r.at.Some? ==> r.at.value in s.servers && InServer(s.servers[r.at.value], id))
    && (r.done || !(r.swallow || r.noreply) ==> InClient(s, r, id))
  }

  ghost predicate Links(s: State) {
    && (forall c :: c in s.clients ==> ClientOk(s.reqs, c, s.clients[c]))
    && (forall sid :: sid in s.servers ==> ServerOk(s.reqs, sid, s.servers[sid]))
    && (forall id :: id in s.reqs ==> ReqOk(s, id, s.reqs[id]))
    && (forall sid :: sid in s.servers && sid in s.hist.wire ==> s.hist.wire[sid] == s.servers[sid].outq)
  }

  // ---------- How the members of a vector stand in a client queue ----------

  ghost predicate Live(reqs: map<MsgId, Req>, q: seq<MsgId>) {
    forall i :: 0 <= i < |q| ==> q[i] in reqs
  }

  predicate Unlatched(r: Req) {
    r.fragId != 0 && !r.fdone
  }

  /** Members of one vector stand next to each other. */
  ghost predicate Contiguous(reqs: map<MsgId, Req>, q: seq<MsgId>)
    requires Live(reqs, q)
  {
    forall i, k, j :: 0 <= i < k < j < |q| && reqs[q[i]].fragId == reqs[q[j]].fragId != 0 ==>
      reqs[q[k]].fragId == reqs[q[i]].fragId
  }

  /** Of two members of one vector, the later one is a fragment. */
  ghost predicate OwnerFirst(reqs: map<MsgId, Req>, parts: set<MsgId>, q: seq<MsgId>)
    requires Live(reqs, q)
  {
    forall i, j :: 0 <= i < j < |q| && reqs[q[i]].fragId == reqs[q[j]].fragId != 0 ==> q[j] in parts
  }

  ghost predicate PartOf(reqs: map<MsgId, Req>, h: History, q: seq<MsgId>, o: MsgId, f: nat, x: MsgId) {
    x in q && x in reqs && x in h.parts && reqs[x].fragId == f && reqs[x].fragOwner == Some(o)
  }

  /** All fragments of an owner that has not been answered stand in its queue. */
  ghost predicate OwnerOk(reqs: map<MsgId, Req>, h: History, q: seq<MsgId>, o: MsgId, open: Open)
    requires o in reqs
  {
    && o in h.vectors
    && NoDup(h.vectors[o])
    && reqs[o].fragOwner == Some(o) && reqs[o].done && !reqs[o].error
    && reqs[o].nfrag == |h.vectors[o]| + Rest(open, o)
    && reqs[o].nfrag > 0
    && (open.Opened? && open.owner == o ==> reqs[o].nfragDone == 0)
    && (forall x :: x in h.vectors[o] ==> PartOf(reqs, h, q, o, reqs[o].fragId, x))
  }

  ghost predicate HasOwner(reqs: map<MsgId, Req>, h: History, q: seq<MsgId>, id: MsgId)
    requires id in reqs
  {
    && reqs[id].fragOwner.Some?
    && var o := reqs[id].fragOwner.value;
    && o in q && o in reqs && o !in h.parts && Unlatched(reqs[o]) && reqs[o].fragId == reqs[id].fragId
    && o in h.vectors && id in h.vectors[o]
  }

  /** A part of a coalesced reply is the answer to its fragment, unless that fragment failed and
      still stands in the queue, where req_error finds it. */
  ghost predicate PartFits(reqs: map<MsgId, Req>, h: History, q: seq<MsgId>, f: nat, x: MsgId, p: Option<int>) {
    || (x in h.answers && p == Some(h.answers[x]))
    || (x in q && x in reqs && reqs[x].error && reqs[x].fragId == f)
  }

  ghost predicate Gathered(reqs: map<MsgId, Req>, h: History, q: seq<MsgId>, o: MsgId)
    requires o in reqs
  {
    reqs[o].peer.Some? && reqs[o].peer.value.Coalesced? ==>
      var ps := reqs[o].peer.value.parts;
      && o in h.vectors && |ps| == |h.vectors[o]|
      && forall i :: 0 <= i < |ps| ==> PartFits(reqs, h, q, reqs[o].fragId, h.vectors[o][i], ps[i])
  }

  /** The owner of a failed fragment has not been answered yet. */
  ghost predicate OwnerWaits(reqs: map<MsgId, Req>, h: History, q: seq<MsgId>, r: Req) {
    && r.fragOwner.Some?
    && var o := r.fragOwner.value;
    && o in q && o in reqs && o !in h.parts && reqs[o].fragId == r.fragId
  }

  /** No other member of the request's vector is in the queue. */
  ghost predicate Alone(reqs: map<MsgId, Req>, q: seq<MsgId>, id: MsgId)
    requires id in reqs
  {
    forall i :: 0 <= i < |q| && q[i] in reqs && reqs[q[i]].fragId == reqs[id].fragId ==> q[i] == id
  }

  ghost predicate MemberOk(reqs: map<MsgId, Req>, h: History, q: seq<MsgId>, id: MsgId, open: Open)
    requires id in reqs
  {
    var r := reqs[id];
    && (r.fdone ==> r.done && r.fragId != 0)
    && (id in h.coalesced ==> r.fdone) && (r.fdone && id !in h.parts ==> id in h.coalesced)
    && (Unlatched(r) && id !in h.parts ==> OwnerOk(reqs, h, q, id, open))
    && (Unlatched(r) && id in h.parts ==> HasOwner(reqs, h, q, id))
    && (id in h.parts && r.error && r.fdone ==> OwnerWaits(reqs, h, q, r))
    && (r.ferror ==> r.fdone && r.peer.Some? && r.peer.value.Failure? && Alone(reqs, q, id))
    && (r.fragId == 0 ==> id !in h.parts && r.fragOwner.None?)
    && (r.peer.Some? && r.peer.value.Coalesced? ==> r.fdone)
    && Gathered(reqs, h, q, id)
  }

  /** fdone is set on all members of a vector or on none. */
  ghost predicate AllOrNone(reqs: map<MsgId, Req>, q: seq<MsgId>)
    requires Live(reqs, q)
  {
    forall i, j :: 0 <= i < |q| && 0 <= j < |q| && reqs[q[i]].fragId == reqs[q[j]].fragId ==>
      reqs[q[i]].fdone == reqs[q[j]].fdone
  }

  /** The vector being received stands at the end of the queue. */
  ghost predicate OpenAtEnd(reqs: map<MsgId, Req>, q: seq<MsgId>, open: Open)
    requires Live(reqs, q)
  {
    open.Opened? && open.owner in q ==>
      open.owner in reqs && Unlatched(reqs[open.owner]) && reqs[q[|q| - 1]].fragId == reqs[open.owner].fragId
  }

  ghost predicate QueueOk(reqs: map<MsgId, Req>, h: History, q: seq<MsgId>, open: Open) {
    && Live(reqs, q)
    && Contiguous(reqs, q)
    && OwnerFirst(reqs, h.parts, q)
    && AllOrNone(reqs, q)
    && OpenAtEnd(reqs, q, open)
    && (forall i :: 0 <= i < |q| ==> MemberOk(reqs, h, q, q[i], open))
  }

  ghost predicate Queues(s: State, open: Open) {
    forall c :: c in s.clients ==> QueueOk(s.reqs, s.hist, s.clients[c], open)
  }

  // ---------- Which response belongs to which request ----------

  /** The reply is the one the backends gave; and a split request is replied to after post_coalesce. */
  ghost predicate ReplyFits(h: History, id: MsgId, r: Reply) {
    && (id in h.vectors ==> id in h.coalesced)
    && match r
       case Backend(x) => id in h.answers && h.answers[id] == x
       case Coalesced(ps) =>
         && id in h.vectors && |ps| == |h.vectors[id]|
         && forall i :: 0 <= i < |ps| ==>
              h.vectors[id][i] in h.answers && ps[i] == Some(h.answers[h.vectors[id][i]])
       case Local => id in h.local
       case Failure(_) => true
  }

  /** The response a live request holds is the one its backend gave for it. */
  ghost predicate PairedAt(h: History, id: MsgId, r: Req) {
    && (!r.done ==> r.peer.None? && id !in h.answers)
    && (r.done && !r.error ==> r.peer.Some?)
    && (r.peer.Some? && r.peer.value.Backend? ==> id in h.answers && h.answers[id] == r.peer.value.payload)
    && (r.peer.Some? && r.peer.value.Failure? ==> !Unlatched(r))
    && (r.peer == Some(Local) ==> id in h.local || Unlatched(r))
    && (id in h.parts && r.peer.Some? ==> r.peer.value.Backend? || r.peer.value.Failure?)
    && (id in h.parts ==> IsPart(r, id))
    && (id in h.vectors ==> id !in h.parts && r.fragId != 0 && r.done)
    && (id in h.stuck ==> r.done)
  }

  ghost predicate Paired(s: State) {
    && (forall id :: id in s.reqs ==> PairedAt(s.hist, id, s.reqs[id]))
    && (forall id :: id in s.hist.replies ==> ReplyFits(s.hist, id, s.hist.replies[id]))
  }

  // ---------- Timeouts ----------

  ghost predicate Sorted(ts: seq<Timer>) {
    forall i, j :: 0 <= i < j < |ts| ==> ts[i].deadline <= ts[j].deadline && ts[i].id != ts[j].id
  }

  ghost predicate Armed(ts: seq<Timer>, id: MsgId) {
    exists t :: t in ts && t.id == id
  }

  ghost predicate TimerOk(reqs: map<MsgId, Req>, t: Timer) {
    t.id in reqs && (!reqs[t.id].done ==> reqs[t.id].at == Some(t.conn))
  }

  /** A request waits for a reply on a server connection that is not closing. */
  ghost predicate Waits(s: State, r: Req) {
    !r.done && !r.noreply && r.at.Some? && r.at.value in s.hist.wire
  }

  /** The timeout tree is sorted, its entries are live requests, and an entry that can still expire
      names the open connection whose queues hold the request. */
  ghost predicate Timed(s: State) {
    && Sorted(s.timers)
    && (forall t :: t in s.timers ==> TimerOk(s.reqs, t))
    && (s.timeout > 0 ==>
          forall id :: id in s.reqs && Waits(s, s.reqs[id]) ==> Armed(s.timers, id))
  }

  // ---------- What clients were sent ----------

  /** What a client has been sent and what its queue still holds, together, are what arrived; once
      it has closed, what it was sent is a prefix of what arrived. */
  ghost predicate ClientLog(arrived: seq<MsgId>, sent: seq<MsgId>, queue: Option<seq<MsgId>>,
                            gone: set<MsgId>, nextId: MsgId) {
    && NoDup(arrived)
    && (forall i :: 0 <= i < |arrived| ==> 0 <= arrived[i] < nextId)
    && match queue
       case Some(q) => Without(arrived, gone) == sent + q
       case None => sent <= Without(arrived, gone)
  }

  function QueueOf(s: State, c: ConnId): Option<seq<MsgId>> {
    if c in s.clients then Some(s.clients[c]) else None
  }

  ghost predicate LoggedAt(s: State, c: ConnId)
    requires c in s.hist.arrived
  {
    var h := s.hist;
    && c in h.sent
    && ClientLog(h.arrived[c], h.sent[c], QueueOf(s, c), h.empty + h.dropped, s.nextId)
  }

  ghost predicate Apart(a: seq<MsgId>, b: seq<MsgId>) {
    forall i, j :: 0 <= i < |a| && 0 <= j < |b| ==> a[i] != b[j]
  }

  ghost predicate Logged(s: State) {
    && (forall c :: c in s.clients ==> c in s.hist.arrived)
    && (forall c :: c in s.hist.arrived ==> LoggedAt(s, c))
    && (forall c, c' :: c in s.hist.arrived && c' in s.hist.arrived && c != c' ==>
          Apart(s.hist.arrived[c], s.hist.arrived[c']))
  }

  // ---------- Identities ----------

  ghost predicate Known(h: History, id: MsgId) {
    || id in h.parts || id in h.empty || id in h.local || id in h.vectors || id in h.answers
    || id in h.coalesced || id in h.freed || id in h.replies || id in h.stuck
  }

  ghost predicate VectorKnown(s: State, o: MsgId)
    requires o in s.hist.vectors
  {
    forall i :: 0 <= i < |s.hist.vectors[o]| ==> 0 <= s.hist.vectors[o][i] < s.nextId
  }

  /** Every request there ever was is live or recycled, and no request is recycled twice. */
  ghost predicate Ids(s: State) {
    var h := s.hist;
    && 0 <= s.nextId && 0 < s.nextFrag
    && h.dropped <= h.parts && h.empty <= h.parts
    && (forall id :: Known(h, id) ==> 0 <= id < s.nextId)
    && (forall o :: o in h.vectors ==> VectorKnown(s, o))
    && NoDup(h.coalesced) && NoDup(h.freed)
    && (forall id :: id in h.freed ==> id !in s.reqs)
    && (forall id :: 0 <= id < s.nextId ==> id in s.reqs || id in h.freed)
    && (forall id :: id in h.replies ==> id in h.freed)
  }

  ghost predicate OpenOk(s: State, open: Open) {
    open.Opened? ==>
      && open.rest > 0
      && open.owner in s.reqs && open.owner !in s.hist.parts
      && InClient(s, s.reqs[open.owner], open.owner)
  }

  ghost predicate Parts(s: State, open: Open) {
    OpenOk(s, open) && Links(s) && Queues(s, open) && Paired(s) && Timed(s) && Logged(s) && Ids(s)
  }

  /** The invariant. It is the conjunction of its parts, kept behind a quantifier so that proofs that
      only hand it on do not unfold it. */
  ghost predicate Inv(s: State, open: Open) {
    forall u :: Lock(0, u) ==> Parts(s, open)
  }

  lemma Unfold(s: State, open: Open)
    requires Inv(s, open)
    ensures Parts(s, open)
  {
    assert Lock(0, 0);
  }
}
