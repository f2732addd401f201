/**
  The state of the request pipeline: which request sits in which client and server queue,
  what its flags are, and when it times out.

  A request is named by its incarnation (`msg->id`): putting it back on the free list removes it
  from `reqs`, so a pointer that outlives its message is an id that is no longer in `reqs`.
  A response is a value held by its request (`msg->peer`).
*/
module PipelineState {
  import opened Basics
  import opened Seqs

  type MsgId = int
  type ConnId = int

  /** What a client is sent for one of its requests. */
  datatype Reply =
    | Backend(payload: int)                 // the response a server sent
    | Local                                 // written by the proxy itself
    | Coalesced(parts: seq<Option<int>>)    // put together from the fragments' responses
    | Failure(err: int)                     // a generic error

  /** `at` is the server connection whose in or out queue holds the request; it is kept for the
      statements below, the code has no such field. `off` is how many bytes of the reply `peer` have been
      written to the client. */
  datatype Req = Req(
    client: ConnId, noreply: bool, swallow: bool,
    done: bool, error: bool, err: int, fdone: bool, ferror: bool,
    fragId: nat, fragOwner: Option<MsgId>, nfrag: nat, nfragDone: nat,
    peer: Option<Reply>, at: Option<ConnId>, off: nat)

  datatype ServerConn = ServerConn(inq: seq<MsgId>, outq: seq<MsgId>)

  datatype Timer = Timer(id: MsgId, conn: ConnId, deadline: int)

  /**
    What happened so far, as an outside observer would write it down; of it the handlers read only the
    fragments of a vector.
    `wire[sid]` is the backend's own view of a connection: the requests it received and still has
    to answer, oldest first. `answers` is what it answered.
  */
  datatype History = History(
    arrived: map<ConnId, seq<MsgId>>,     // reply-expecting requests of each client, as they came in
    sent: map<ConnId, seq<MsgId>>,        // requests whose non-empty reply was written to the client
    replies: map<MsgId, Reply>,           // the reply that was written
    empty: set<MsgId>,                    // requests released with a reply of no bytes
    dropped: set<MsgId>,                  // fragments unlinked because their vector failed
    local: set<MsgId>,                    // requests the proxy answered itself
    freed: seq<MsgId>,                    // requests put back on the free list
    coalesced: seq<MsgId>,                // vector owners post_coalesce was called on
    vectors: map<MsgId, seq<MsgId>>,      // the fragments of each vector owner
    parts: set<MsgId>,                    // every fragment
    stuck: set<MsgId>,                    // fragments that could not be sent anywhere (req_forward_error)
    wire: map<ConnId, seq<MsgId>>,
    answers: map<MsgId, int>)

  const NoHistory := History(map[], map[], map[], {}, {}, {}, [], [], map[], {}, {}, map[], map[])

  datatype State = State(
    reqs: map<MsgId, Req>,
    clients: map<ConnId, seq<MsgId>>,     // the out queue of each open client connection
    servers: map<ConnId, ServerConn>,
    timers: seq<Timer>,                   // the timeout tree, in order
    timeout: int,
    nextId: MsgId,
    nextFrag: nat,
    hist: History)

  /** The vector whose fragments are being forwarded, and how many are still to come. */
  datatype Open = Closed | Opened(owner: MsgId, rest: nat)

  function Rest(open: Open, o: MsgId): nat {
    if open.Opened? && open.owner == o then open.rest else 0
  }

  // ---------- The timeout tree as a queue sorted by deadline ----------

  /** msg_tmo_insert: behind every entry that expires no later. */
  function Schedule(ts: seq<Timer>, t: Timer): (r: seq<Timer>) {
    if ts == [] || t.deadline < ts[0].deadline then [t] + ts
    else [ts[0]] + Schedule(ts[1..], t)
  }

  /** msg_tmo_delete: a request that is not in the tree is left alone. */
  function Cancel(ts: seq<Timer>, id: MsgId): (r: seq<Timer>) {
    if ts == [] then []
    else if ts[0].id == id then ts[1..]
    else [ts[0]] + Cancel(ts[1..], id)
  }

  // ---------- Elementary moves ----------

  /** req_put: cancel the timeout and put the request on the free list. */
  function Put(s: State, id: MsgId): State {
    s.(reqs := s.reqs - {id}, timers := Cancel(s.timers, id),
       hist := s.hist.(freed := s.hist.freed + [id]))
  }

  predicate IsPart(r: Req, id: MsgId) {
    r.fragOwner.Some? && r.fragOwner.value != id
  }

  function AddVector(h: History, r: Req, id: MsgId): History {
    if r.fragOwner.None? then h
    else if r.fragOwner.value == id then h.(vectors := h.vectors[id := []])
    else if r.fragOwner.value in h.vectors then
      h.(parts := h.parts + {id}, stuck := if r.done then h.stuck + {id} else h.stuck,
         vectors := h.vectors[r.fragOwner.value := h.vectors[r.fragOwner.value] + [id]])
    else h
  }

  function AddHistory(h: History, r: Req, id: MsgId): History {
    AddVector(
      h.(arrived := if r.noreply || r.swallow || r.client !in h.arrived then h.arrived
                    else h.arrived[r.client := h.arrived[r.client] + [id]],
         local := if r.peer == Some(Local) && r.fragOwner.None? then h.local + {id} else h.local),
      r, id)
  }

  function AddTimer(s: State, id: MsgId, r: Req, now: int): seq<Timer> {
    if r.at.Some? && !r.noreply && s.timeout > 0
    then Schedule(s.timers, Timer(id, r.at.value, now + s.timeout)) else s.timers
  }

  /** A new request enters the queues its record says it is in: a client's out queue, and the head
      (for a handshake) or tail of a server connection's in queue. */
  function Add(s: State, r: Req, head: bool, now: int): State
    requires !r.noreply && !r.swallow ==> r.client in s.clients
    requires r.at.Some? ==> r.at.value in s.servers
  {
    var id := s.nextId;
    s.(reqs := s.reqs[id := r],
       nextId := id + 1,
       clients := if r.noreply || r.swallow then s.clients
                  else s.clients[r.client := s.clients[r.client] + [id]],
       servers := if r.at.None? then s.servers
                  else s.servers[r.at.value := Push(s.servers[r.at.value], id, head)],
       timers := AddTimer(s, id, r, now),
       hist := AddHistory(s.hist, r, id))
  }

  function Push(v: ServerConn, id: MsgId, head: bool): ServerConn {
    v.(inq := if head then [id] + v.inq else v.inq + [id])
  }

  /** A request leaves its server connection, whose queues become `v`, and is done. */
  function Complete(s: State, sid: ConnId, v: ServerConn, id: MsgId, r: Req): State {
    s.(reqs := s.reqs[id := r.(done := true, at := None)], servers := s.servers[sid := v])
  }

  /** A request leaves its server connection, whose queues become `v`, and is recycled. */
  function Discard(s: State, sid: ConnId, v: ServerConn, id: MsgId): State {
    Put(s.(servers := s.servers[sid := v]), id)
  }

  function Bump(s: State, o: MsgId): State
    requires o in s.reqs
  {
    s.(reqs := s.reqs[o := s.reqs[o].(nfragDone := s.reqs[o].nfragDone + 1)])
  }

  function PayloadOf(reqs: map<MsgId, Req>, id: MsgId): Option<int> {
    if id in reqs && reqs[id].peer.Some? && reqs[id].peer.value.Backend?
    then Some(reqs[id].peer.value.payload) else None
  }

  /** The payloads post_coalesce finds on the fragments. */
  function Gather(reqs: map<MsgId, Req>, parts: seq<MsgId>): (r: seq<Option<int>>)
    ensures |r| == |parts|
    ensures forall i :: 0 <= i < |parts| ==> r[i] == PayloadOf(reqs, parts[i])
  {
    seq(|parts|, i requires 0 <= i < |parts| => PayloadOf(reqs, parts[i]))
  }

  /** The members of vector f in queue q. */
  function Members(reqs: map<MsgId, Req>, q: seq<MsgId>, f: nat): set<MsgId> {
    set id | id in q && id in reqs && reqs[id].fragId == f
  }

  function SetFdone(reqs: map<MsgId, Req>, ms: set<MsgId>): map<MsgId, Req> {
    map i | i in reqs :: if i in ms then reqs[i].(fdone := true) else reqs[i]
  }

  function SetFerror(reqs: map<MsgId, Req>, ms: set<MsgId>): map<MsgId, Req> {
    map i | i in reqs :: if i in ms then reqs[i].(ferror := true) else reqs[i]
  }

  function SetPeer(s: State, id: MsgId, reply: Reply): State
    requires id in s.reqs
  {
    s.(reqs := s.reqs[id := s.reqs[id].(peer := Some(reply))])
  }

  function SetOff(s: State, id: MsgId, n: nat): State
    requires id in s.reqs
  {
    s.(reqs := s.reqs[id := s.reqs[id].(off := n)])
  }

  /** The members of the vector get fdone, and post_coalesce puts the owner's reply together. */
  function Latch(s: State, q: seq<MsgId>, f: nat, o: MsgId): State
    requires o in s.hist.vectors && o in s.reqs
  {
    var s1 := s.(reqs := SetFdone(s.reqs, Members(s.reqs, q, f)));
    SetPeer(s1, o, Coalesced(Gather(s1.reqs, s.hist.vectors[o])))
      .(hist := s.hist.(coalesced := s.hist.coalesced + [o]))
  }

  /** A fragment of a failed vector is unlinked from its client queue and recycled. */
  function Drop(s: State, c: ConnId, k: nat): State
    requires c in s.clients && k < |s.clients[c]|
  {
    var id := s.clients[c][k];
    var s1 := Put(s, id);
    s1.(clients := s.clients[c := RemoveAt(s.clients[c], k)],
        hist := s1.hist.(dropped := s1.hist.dropped + {id}))
  }

  /** rsp_send_done: the request is unlinked from its client queue and recycled. */
  function Release(s: State, c: ConnId, k: nat, empty: bool): State
    requires c in s.clients && k < |s.clients[c]| && s.clients[c][k] in s.reqs
    requires s.reqs[s.clients[c][k]].peer.Some?
  {
    var id := s.clients[c][k];
    var s1 := Put(s, id);
    var h := s1.hist;
    s1.(clients := s.clients[c := RemoveAt(s.clients[c], k)],
        hist := if empty then h.(empty := h.empty + {id})
                else if c in h.sent then
                  h.(sent := h.sent[c := h.sent[c] + [id]], replies := h.replies[id := s.reqs[id].peer.value])
                else h)
  }
}
