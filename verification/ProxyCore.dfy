/**
  The handlers as the proxy runs them: loops that walk the queues and update requests in place. Each
  is proved to do what the function of the same name in the Pipeline modules does.
*/
module ProxyCore {
  import opened Basics
  import opened Seqs
  import opened PipelineState
  import opened PipelineInv
  import opened PipelineQueues
  import opened PipelineFlags
  import opened PipelineConns
  import M = PipelineMoves
  import H = PipelineHandlers
  import S = PipelineServer
  import C = PipelineClient

  // ---------- Facts about the neighbour scans ----------

  function Range(q: seq<MsgId>, a: nat, b: nat): set<MsgId>
    requires a <= b <= |q|
  {
    set x | x in q[a..b]
  }

  /** [a, b) is the longest stretch around p whose requests are members of vector f. */
  ghost predicate Stretch(reqs: map<MsgId, Req>, q: seq<MsgId>, f: nat, a: nat, p: nat, b: nat)
    requires Live(reqs, q)
  {
    && a <= p < b <= |q|
    && (forall i :: a <= i < b ==> reqs[q[i]].fragId == f)
    && (a > 0 ==> reqs[q[a - 1]].fragId != f)
    && (b < |q| ==> reqs[q[b]].fragId != f)
  }

  lemma Outside(reqs: map<MsgId, Req>, q: seq<MsgId>, f: nat, a: nat, p: nat, b: nat, i: nat)
    requires Live(reqs, q) && Contiguous(reqs, q) && f != 0 && Stretch(reqs, q, f, a, p, b)
    requires i < |q| && !(a <= i < b)
    ensures reqs[q[i]].fragId != f
  {
    assert reqs[q[p]].fragId == f;
  }

  /** Because members stand next to each other, the stretch holds all of them. */
  lemma StretchIsAll(reqs: map<MsgId, Req>, q: seq<MsgId>, f: nat, a: nat, p: nat, b: nat)
    requires Live(reqs, q) && Contiguous(reqs, q) && f != 0 && Stretch(reqs, q, f, a, p, b)
    ensures forall i :: 0 <= i < |q| && reqs[q[i]].fragId == f ==> a <= i < b
    ensures Members(reqs, q, f) == Range(q, a, b)
  {
    forall i | 0 <= i < |q| && reqs[q[i]].fragId == f ensures a <= i < b {
      if !(a <= i < b) { Outside(reqs, q, f, a, p, b, i); }
    }
    forall x | x in Members(reqs, q, f) ensures x in Range(q, a, b) {
      var i :| 0 <= i < |q| && q[i] == x;
      assert q[a..b][i - a] == x;
    }
    forall x | x in Range(q, a, b) ensures x in Members(reqs, q, f) {
      var i :| 0 <= i < |q[a..b]| && q[a..b][i] == x;
      assert q[a + i] == x;
    }
  }

  function Marked(r: Req, fdone: bool): Req {
    if fdone then r.(fdone := true) else r.(ferror := true)
  }

  function MarkAll(reqs: map<MsgId, Req>, ms: set<MsgId>, fdone: bool): (r: map<MsgId, Req>)
    ensures r.Keys == reqs.Keys
    ensures forall x :: x in reqs ==> r[x].fragId == reqs[x].fragId
  {
    if fdone then SetFdone(reqs, ms) else SetFerror(reqs, ms)
  }

  /** The requests at positions [a, b) of q have been marked; kept folded behind a quantifier. */
  ghost predicate Marking(was: map<MsgId, Req>, now: map<MsgId, Req>, q: seq<MsgId>, a: nat, b: nat, fdone: bool) {
    a <= b <= |q| && forall u :: Lock(2, u) ==> now == MarkAll(was, Range(q, a, b), fdone)
  }

  lemma MarkStart(was: map<MsgId, Req>, q: seq<MsgId>, p: nat, fdone: bool)
    requires p < |q| && Live(was, q)
    ensures var now := was[q[p] := Marked(was[q[p]], fdone)];
      Marking(was, now, q, p, p + 1, fdone) && SameIds(was, now, q)
  {
    assert q[p..p + 1] == [q[p]];
    assert Range(q, p, p + 1) == {q[p]};
    MarkLive(was, q, Range(q, p, p + 1), fdone);
    assert was[q[p] := Marked(was[q[p]], fdone)] == MarkAll(was, Range(q, p, p + 1), fdone);
  }

  ghost predicate SameIds(was: map<MsgId, Req>, now: map<MsgId, Req>, q: seq<MsgId>) {
    forall i :: 0 <= i < |q| ==> q[i] in was && q[i] in now && now[q[i]].fragId == was[q[i]].fragId
  }

  lemma MarkMore(was: map<MsgId, Req>, now: map<MsgId, Req>, q: seq<MsgId>, a: nat, b: nat, a': nat, b': nat, x: MsgId,
                 fdone: bool)
    requires Marking(was, now, q, a, b, fdone) && Live(was, q) && a' <= b' <= |q|
    requires (a' == a - 1 && b' == b && x == q[a']) || (a' == a && b' == b + 1 && x == q[b])
    requires x in now
    ensures Marking(was, now[x := Marked(now[x], fdone)], q, a', b', fdone)
    ensures SameIds(was, now[x := Marked(now[x], fdone)], q)
  {
    assert Lock(2, 0);
    RangeMore(q, a, b, a', b', x);
    MarkLive(was, q, Range(q, a', b'), fdone);
    MarkOne(was, Range(q, a, b), x, fdone);
  }

  lemma MarkOne(was: map<MsgId, Req>, ms: set<MsgId>, x: MsgId, fdone: bool)
    requires x in was
    ensures MarkAll(was, ms, fdone)[x := Marked(MarkAll(was, ms, fdone)[x], fdone)] == MarkAll(was, ms + {x}, fdone)
  {
  }

  lemma MarkDone(was: map<MsgId, Req>, now: map<MsgId, Req>, q: seq<MsgId>, f: nat, a: nat, p: nat, b: nat, fdone: bool)
    requires Marking(was, now, q, a, b, fdone)
    requires Live(was, q) && NoDup(q) && Contiguous(was, q) && f != 0 && Stretch(was, q, f, a, p, b)
    ensures now == MarkAll(was, Members(was, q, f), fdone)
    ensures |Members(was, q, f)| == b - a
  {
    assert Lock(2, 0);
    StretchIsAll(was, q, f, a, p, b);
    RangeCard(q, a, b);
  }

  lemma MarkLive(reqs: map<MsgId, Req>, q: seq<MsgId>, ms: set<MsgId>, fdone: bool)
    requires Live(reqs, q)
    ensures SameIds(reqs, MarkAll(reqs, ms, fdone), q)
  {
    forall i | 0 <= i < |q|
      ensures q[i] in MarkAll(reqs, ms, fdone) && MarkAll(reqs, ms, fdone)[q[i]].fragId == reqs[q[i]].fragId {
      var x := q[i];
      assert x in reqs;
    }
  }

  lemma RangeMore(q: seq<MsgId>, a: nat, b: nat, a': nat, b': nat, x: MsgId)
    requires a <= b <= |q| && a' <= b' <= |q|
    requires (a' == a - 1 && b' == b && x == q[a']) || (a' == a && b' == b + 1 && x == q[b])
    ensures Range(q, a', b') == Range(q, a, b) + {x}
  {
    if b' == b {
      assert q[a'..b'] == [x] + q[a..b];
    } else {
      assert q[a'..b'] == q[a..b] + [x];
    }
  }

  lemma {:induction false} SetOfCard(q: seq<MsgId>)
    requires NoDup(q)
    ensures |set x | x in q| == |q|
  {
    if q != [] {
      var q', last := q[..|q| - 1], q[|q| - 1];
      SetOfCard(q');
      assert q == q' + [last];
      assert (set x | x in q) == (set x | x in q') + {last};
      forall i | 0 <= i < |q'| ensures q'[i] != last {}
      assert last !in q';
    }
  }

  lemma SliceNoDup(q: seq<MsgId>, a: nat, b: nat)
    requires NoDup(q) && a <= b <= |q|
    ensures NoDup(q[a..b])
  {
    forall i, j | 0 <= i < j < b - a ensures q[a..b][i] != q[a..b][j] {
      assert q[a + i] != q[a + j];
    }
  }

  lemma RangeCard(q: seq<MsgId>, a: nat, b: nat)
    requires NoDup(q) && a <= b <= |q|
    ensures |Range(q, a, b)| == b - a
  {
    SliceNoDup(q, a, b);
    SetOfCard(q[a..b]);
  }

  /** A vector that can be latched has one member for every fragment it was split into, and its owner. */
  lemma MembersCount(s: State, c: ConnId, o: MsgId, open: Open)
    requires Inv(s, open) && CanLatch(s, c, o, open)
    ensures |Members(s.reqs, s.clients[c], s.reqs[o].fragId)| == s.reqs[o].nfrag + 1
  {
    H.Entry(s, c, o, open);
    OwnerAndParts(s.reqs, s.hist, s.clients[c], o, open);
    SetOfCard(s.hist.vectors[o]);
  }

  lemma OwnerAndParts(reqs: map<MsgId, Req>, h: History, q: seq<MsgId>, o: MsgId, open: Open)
    requires QueueOk(reqs, h, q, open) && o in q && o in reqs && Unlatched(reqs[o]) && o !in h.parts
    ensures o in h.vectors && Members(reqs, q, reqs[o].fragId) == (set x | x in h.vectors[o]) + {o}
    ensures o !in h.vectors[o]
  {
    var i :| 0 <= i < |q| && q[i] == o;
    assert MemberOk(reqs, h, q, q[i], open);
    forall x | x in Members(reqs, q, reqs[o].fragId) ensures x in h.vectors[o] || x == o {
      if x != o { MembersAre(reqs, h, q, o, x, open); }
    }
    forall x | x in h.vectors[o] ensures x in Members(reqs, q, reqs[o].fragId) && x in h.parts {
      assert PartOf(reqs, h, q, o, reqs[o].fragId, x);
    }
  }

  function ErrorMarked(reqs: map<MsgId, Req>, q: seq<MsgId>, id: MsgId): map<MsgId, Req>
    requires id in reqs
  {
    var r := reqs[id];
    if r.error || r.fragId == 0 || r.ferror then reqs else SetFerror(reqs, Members(reqs, q, r.fragId))
  }

  /** Between the first fragment of a failed vector being dropped and its first member being answered,
      the running state v and the state t in which that member was answered first differ in that
      answer and in the marks. */
  ghost predicate MarkedLike(s: State, t: State, v: State, id: MsgId) {
    && v == t.(reqs := v.reqs) && v.reqs.Keys == t.reqs.Keys && id in v.reqs && id in s.reqs
    && t.reqs[id] == s.reqs[id].(peer := t.reqs[id].peer)
    && v.reqs[id] == s.reqs[id].(ferror := s.reqs[id].ferror || (!s.reqs[id].error && s.reqs[id].fragId != 0))
    && (forall x :: x in v.reqs && x != id ==>
          x in s.reqs && t.reqs[x] == s.reqs[x] &&
          (v.reqs[x] == s.reqs[x] ||
            (s.reqs[id].fragId == s.reqs[x].fragId != 0 && s.reqs[x].client == s.reqs[id].client &&
             s.reqs[x].done && v.reqs[x] == s.reqs[x].(ferror := true))))
  }

  /** i of the n fragments behind position k have been dropped, the rest is left to drop. */
  ghost predicate Dropping(s: State, t: State, v: State, c: ConnId, k: nat, n: nat, i: nat, rest: nat) {
    forall u :: Lock(2, u) ==> DroppingParts(s, t, v, c, k, n, i, rest)
  }

  ghost predicate DroppingParts(s: State, t: State, v: State, c: ConnId, k: nat, n: nat, i: nat, rest: nat) {
    && c in s.clients && k + n < |s.clients[c]| && i + rest == n && c in t.clients
    && Inv(t, Closed) && C.Stands(t, c, k, rest)
    && t.clients[c] == s.clients[c][..k + 1] + s.clients[c][k + 1 + i..]
    && MarkedLike(s, t, v, s.clients[c][k])
    && Inv(s, Closed) && C.CanFail(s, c, k) && n == C.Followers(s, c, k)
    && t.hist.parts == s.hist.parts
    && (var t0 := SetPeer(s, s.clients[c][k], Failure(C.ErrOf(s, c, k)));
        Inv(t0, Closed) && C.Stands(t0, c, k, n) && C.DropNext(t, c, k, rest) == C.DropNext(t0, c, k, n))
  }

  lemma FirstNonzeroStep(es: seq<int>, i: nat)
    requires i < |es|
    ensures C.FirstNonzero(es[i..]) == if es[i] != 0 then es[i] else C.FirstNonzero(es[i + 1..])
  {
    assert es[i..][1..] == es[i + 1..];
  }

  /** The first timer of a request is the one that is cancelled. */
  lemma {:induction false} CancelledAt(ts: seq<Timer>, id: MsgId, i: nat)
    requires i <= |ts| && forall k :: 0 <= k < i ==> ts[k].id != id
    requires i < |ts| ==> ts[i].id == id
    ensures Cancel(ts, id) == if i < |ts| then ts[..i] + ts[i + 1..] else ts
  {
    if i > 0 { CancelledAt(ts[1..], id, i - 1); }
  }

  /** msg_tmo_delete on the timeout queue. */
  method TmoDelete(ts: seq<Timer>, id: MsgId) returns (r: seq<Timer>)
    ensures r == Cancel(ts, id)
  {
    var i := 0;
    while i < |ts| && ts[i].id != id
      invariant 0 <= i <= |ts| && forall k :: 0 <= k < i ==> ts[k].id != id
    {
      i := i + 1;
    }
    CancelledAt(ts, id, i);
    if i < |ts| { r := ts[..i] + ts[i + 1..]; } else { r := ts; }
  }

  /** A timer is scheduled before the first one with a later deadline. */
  lemma {:induction false} ScheduledAt(ts: seq<Timer>, t: Timer, i: nat)
    requires i <= |ts| && forall k :: 0 <= k < i ==> ts[k].deadline <= t.deadline
    requires i < |ts| ==> t.deadline < ts[i].deadline
    ensures Schedule(ts, t) == ts[..i] + [t] + ts[i..]
  {
    if i > 0 { ScheduledAt(ts[1..], t, i - 1); }
  }

  /** msg_tmo_insert on the timeout queue. */
  method TmoInsert(ts: seq<Timer>, t: Timer) returns (r: seq<Timer>)
    ensures r == Schedule(ts, t)
  {
    var i := 0;
    while i < |ts| && ts[i].deadline <= t.deadline
      invariant 0 <= i <= |ts| && forall k :: 0 <= k < i ==> ts[k].deadline <= t.deadline
    {
      i := i + 1;
    }
    ScheduledAt(ts, t, i);
    r := ts[..i] + [t] + ts[i..];
  }

  /** The scan of req_done: whether all members of vector f, around position p, are done. */
  method ScanDone(reqs: map<MsgId, Req>, q: seq<MsgId>, p: nat, f: nat) returns (all: bool)
    requires Live(reqs, q) && Contiguous(reqs, q) && p < |q| && f != 0 && reqs[q[p]].fragId == f && reqs[q[p]].done
    ensures all == AllDone(reqs, q, f)
  {
    var a := p;
    while a > 0 && reqs[q[a - 1]].fragId == f
      invariant 0 <= a <= p
      invariant forall i :: a <= i <= p ==> reqs[q[i]].fragId == f && reqs[q[i]].done
    {
      a := a - 1;
      if !reqs[q[a]].done { return false; }
    }
    var b := p + 1;
    while b < |q| && reqs[q[b]].fragId == f
      invariant p < b <= |q|
      invariant forall i :: a <= i < b ==> reqs[q[i]].fragId == f && reqs[q[i]].done
    {
      if !reqs[q[b]].done { return false; }
      b := b + 1;
    }
    StretchIsAll(reqs, q, f, a, p, b);
    all := true;
  }

  /** The scan of req_error: whether any member of vector f, around position p, failed. */
  method ScanError(reqs: map<MsgId, Req>, q: seq<MsgId>, p: nat, f: nat) returns (any: bool)
    requires Live(reqs, q) && Contiguous(reqs, q) && p < |q| && f != 0 && reqs[q[p]].fragId == f && !reqs[q[p]].error
    ensures any == H.AnyError(reqs, q, f)
  {
    var a := p;
    while a > 0 && reqs[q[a - 1]].fragId == f
      invariant 0 <= a <= p
      invariant forall i :: a <= i <= p ==> reqs[q[i]].fragId == f && !reqs[q[i]].error
    {
      a := a - 1;
      if reqs[q[a]].error { return true; }
    }
    var b := p + 1;
    while b < |q| && reqs[q[b]].fragId == f
      invariant p < b <= |q|
      invariant forall i :: a <= i < b ==> reqs[q[i]].fragId == f && !reqs[q[i]].error
    {
      if reqs[q[b]].error { return true; }
      b := b + 1;
    }
    StretchIsAll(reqs, q, f, a, p, b);
    any := false;
  }

  class Core {
    var reqs: map<MsgId, Req>
    var clients: map<ConnId, seq<MsgId>>
    var servers: map<ConnId, ServerConn>
    var timers: seq<Timer>
    var timeout: int
    var nextId: MsgId
    var nextFrag: nat
    var hist: History

    ghost function View(): State
      reads this
    {
      State(reqs, clients, servers, timers, timeout, nextId, nextFrag, hist)
    }

    constructor (timeout: int)
      ensures Inv(View(), Closed) && View() == State(map[], map[], map[], [], timeout, 0, 1, NoHistory)
    {
      reqs, clients, servers, timers := map[], map[], map[], [];
      this.timeout, nextId, nextFrag, hist := timeout, 0, 1, NoHistory;
      new;
      assert Parts(View(), Closed);
    }

    /** req_done, on the request at position p of the queue of client c. */
    method ReqDone(c: ConnId, p: nat, ghost open: Open) returns (yes: bool)
      requires Inv(View(), open) && c in clients && p < |clients[c]| && (open.Closed? || p == 0)
      modifies this
      ensures (View(), yes) == H.ReqDone(old(View()), c, old(clients[c][p]), open)
    {
      ghost var s := View();
      var q := clients[c];
      var id := q[p];
      assert id in q;
      H.Entry(s, c, id, open);
      if !reqs[id].done { return false; }
      var f := reqs[id].fragId;
      if f == 0 { return true; }
      if reqs[id].fdone { return true; }
      if reqs[id].nfragDone < reqs[id].nfrag { return false; }

      var all := ScanDone(reqs, q, p, f);
      if !all { return false; }
      H.OwnerOf(s, c, id, open);
      var o := reqs[id].fragOwner.value;
      MembersCount(s, c, o, open);
      var nfragment := Mark(q, p, f, true);
      assert s.reqs[o].nfrag == nfragment;
      reqs := reqs[o := reqs[o].(peer := Some(Coalesced(Gather(reqs, hist.vectors[o]))))];
      hist := hist.(coalesced := hist.coalesced + [o]);
      yes := true;
    }

    /** All members of vector f around position p get fdone, or else ferror; the others are counted. */
    method Mark(q: seq<MsgId>, p: nat, f: nat, fdone: bool) returns (nfragment: nat)
      requires Live(reqs, q) && NoDup(q) && Contiguous(reqs, q) && p < |q| && f != 0 && reqs[q[p]].fragId == f
      modifies this`reqs
      ensures reqs == MarkAll(old(reqs), Members(old(reqs), q, f), fdone)
      ensures nfragment + 1 == |Members(old(reqs), q, f)|
    {
      ghost var was := reqs;
      MarkStart(was, q, p, fdone);
      reqs := reqs[q[p] := Marked(reqs[q[p]], fdone)];
      nfragment := 0;
      var a, b := p, p + 1;
      while a > 0 && reqs[q[a - 1]].fragId == f
        invariant a <= p && nfragment == p - a && Marking(was, reqs, q, a, b, fdone) && SameIds(was, reqs, q)
        invariant forall i :: a <= i < b ==> was[q[i]].fragId == f
      {
        var k := a - 1;
        MarkMore(was, reqs, q, a, b, k, b, q[k], fdone);
        reqs := reqs[q[k] := Marked(reqs[q[k]], fdone)];
        a, nfragment := k, nfragment + 1;
      }
      while b < |q| && reqs[q[b]].fragId == f
        invariant p < b <= |q| && nfragment == b - a - 1 && Marking(was, reqs, q, a, b, fdone) && SameIds(was, reqs, q)
        invariant forall i :: a <= i < b ==> was[q[i]].fragId == f
      {
        var k := b + 1;
        MarkMore(was, reqs, q, a, b, a, k, q[b], fdone);
        reqs := reqs[q[b] := Marked(reqs[q[b]], fdone)];
        b, nfragment := k, nfragment + 1;
      }
      MarkDone(was, reqs, q, f, a, p, b, fdone);
    }

    /** req_error: whether a done request, or a member of its vector, failed. The first time that a
        vector is found failed, its members are marked. */
    method ReqError(c: ConnId, p: nat) returns (yes: bool)
      requires Inv(View(), Closed) && c in clients && p < |clients[c]|
      modifies this`reqs
      ensures Live(old(reqs), clients[c]) && yes == H.IsError(old(reqs), clients[c], clients[c][p])
      ensures reqs == if yes then ErrorMarked(old(reqs), clients[c], clients[c][p]) else old(reqs)
    {
      ghost var s := View();
      var q := clients[c];
      var id := q[p];
      assert id in q;
      H.Entry(s, c, id, Closed);
      if reqs[id].error { return true; }
      var f := reqs[id].fragId;
      if f == 0 { return false; }
      if reqs[id].ferror { return true; }
      yes := ScanError(reqs, q, p, f);
      if yes { var n := Mark(q, p, f, false); }
    }

    /** req_put, of a request already unlinked from its queues. */
    method ReqPut(id: MsgId)
      modifies this`reqs, this`timers, this`hist
      ensures View() == Put(old(View()), id)
    {
      timers := TmoDelete(timers, id);
      reqs := reqs - {id};
      hist := hist.(freed := hist.freed + [id]);
    }

    /** A fragment is unlinked from its client's queue and recycled. */
    method DropAt(c: ConnId, j: nat)
      requires c in clients && j < |clients[c]|
      modifies this`reqs, this`timers, this`hist, this`clients
      ensures View() == Drop(old(View()), c, j)
    {
      var x := clients[c][j];
      clients := clients[c := RemoveAt(clients[c], j)];
      ReqPut(x);
      hist := hist.(dropped := hist.dropped + {x});
    }

    /** rsp_make_error, on the request at position k, found failed by ReqError in state s. */
    method RspMakeError(c: ConnId, k: nat, ghost s: State)
      requires Inv(s, Closed) && C.CanFail(s, c, k) && H.IsError(s.reqs, s.clients[c], s.clients[c][k])
      requires View() == s.(reqs := ErrorMarked(s.reqs, s.clients[c], s.clients[c][k]))
      modifies this
      ensures View() == C.MakeError(s, c, k)
    {
      var id := clients[c][k];
      var err := reqs[id].err;
      ghost var t := MarkedStart(s, View(), c, k);
      if reqs[id].fragId != 0 {
        err, t := DropFollowers(c, k, s, t);
      }
      MarkedEnd(s, t, View(), c, k, C.Followers(s, c, k), err);
      reqs := reqs[id := reqs[id].(peer := Some(Failure(err)))];
      reqs := reqs[id := reqs[id].(off := 0)];
    }

    /** The loop of rsp_make_error: the fragments behind position k go, and the first error among them
        is the one to report. */
    method DropFollowers(c: ConnId, k: nat, ghost s: State, ghost t0: State) returns (err: int, ghost t: State)
      requires Inv(s, Closed) && C.CanFail(s, c, k) && s.reqs[s.clients[c][k]].fragId != 0
      requires c in clients && k < |clients[c]| && clients[c][k] in reqs
      requires reqs[clients[c][k]].fragId == s.reqs[s.clients[c][k]].fragId
      requires Dropping(s, t0, View(), c, k, C.Followers(s, c, k), 0, C.Followers(s, c, k))
      modifies this
      ensures Dropping(s, t, View(), c, k, C.Followers(s, c, k), C.Followers(s, c, k), 0)
      ensures err == C.ErrOf(s, c, k)
    {
      var f := reqs[clients[c][k]].fragId;
      ghost var n := C.Followers(s, c, k);
      ghost var es := C.Errs(s.reqs, s.clients[c], k + 1, n);
      ghost var i, rest := 0, n;
      err, t := 0, t0;
      assert es[0..] == es;
      MarkedNext(s, t, View(), c, k, n, i, rest);
      while k + 1 < |clients[c]| && reqs[clients[c][k + 1]].fragId == f
        invariant i + rest == n && c in clients && Dropping(s, t, View(), c, k, n, i, rest)
        invariant C.FirstNonzero(es) == if err != 0 then err else C.FirstNonzero(es[i..])
        invariant Live(reqs, clients[c]) && (rest > 0 <==> k + 1 < |clients[c]| && reqs[clients[c][k + 1]].fragId == f)
        invariant rest > 0 ==> reqs[clients[c][k + 1]].err == es[i]
        decreases rest
      {
        if err == 0 { err := reqs[clients[c][k + 1]].err; }
        FirstNonzeroStep(es, i);
        i, rest, t := DropNext(c, k, s, t, n, i, rest);
      }
    }

    method DropNext(c: ConnId, k: nat, ghost s: State, ghost t: State, ghost n: nat, ghost i: nat, ghost rest: nat)
      returns (ghost i': nat, ghost rest': nat, ghost t': State)
      requires Inv(s, Closed) && C.CanFail(s, c, k) && s.reqs[s.clients[c][k]].fragId != 0 && n == C.Followers(s, c, k)
      requires rest > 0 && i + rest == n && Dropping(s, t, View(), c, k, n, i, rest) && c in clients
        && k + 1 < |clients[c]|
      modifies this
      ensures i' == i + 1 && rest' == rest - 1
      ensures c in clients && Dropping(s, t', View(), c, k, n, i', rest') && Live(reqs, clients[c])
      ensures rest' > 0 <==> k + 1 < |clients[c]| && reqs[clients[c][k + 1]].fragId == s.reqs[s.clients[c][k]].fragId
      ensures rest' > 0 ==> reqs[clients[c][k + 1]].err == C.Errs(s.reqs, s.clients[c], k + 1, n)[i']
    {
      i', rest' := i + 1, rest - 1;
      t' := DropOne(c, k, s, t, n, i, rest);
    }

    method DropOne(c: ConnId, k: nat, ghost s: State, ghost t: State, ghost n: nat, ghost i: nat, ghost rest: nat)
      returns (ghost t': State)
      requires Inv(s, Closed) && C.CanFail(s, c, k) && s.reqs[s.clients[c][k]].fragId != 0 && n == C.Followers(s, c, k)
      requires rest > 0 && i + rest == n && Dropping(s, t, View(), c, k, n, i, rest) && c in clients
        && k + 1 < |clients[c]|
      modifies this
      ensures c in clients && Dropping(s, t', View(), c, k, n, i + 1, rest - 1) && Live(reqs, clients[c])
      ensures rest > 1 <==> k + 1 < |clients[c]| && reqs[clients[c][k + 1]].fragId == s.reqs[s.clients[c][k]].fragId
      ensures rest > 1 ==> reqs[clients[c][k + 1]].err == C.Errs(s.reqs, s.clients[c], k + 1, n)[i + 1]
    {
      ghost var v := View();
      t' := MarkedStep(s, t, v, c, k, n, i, rest);
      DropAt(c, k + 1);
      assert View() == Drop(v, c, k + 1);
      MarkedNext(s, t', View(), c, k, n, i + 1, rest - 1);
    }

    /** rsp_send_next, with the requests before position k already collected. */
    method RspSendNext(c: ConnId, k: nat) returns (yes: bool)
      requires Inv(View(), Closed) && C.Picked(View(), c, k) && k < |clients[c]|
      modifies this
      ensures (View(), yes) == C.Pick(old(View()), c, k)
    {
      ghost var s0 := View();
      C.ReqDoneKeepsPicked(s0, c, clients[c][k], k);
      yes := ReqDone(c, k, Closed);
      if yes {
        ghost var s := View();
        var failed := ReqError(c, k);
        if failed {
          C.PickCanFail(s, c, k);
          RspMakeError(c, k, s);
        }
      }
    }

    /** rsp_send_done: the request at position k of the client's queue is answered. */
    method RspSendDone(c: ConnId, k: nat, empty: bool)
      requires c in clients && k < |clients[c]| && clients[c][k] in reqs && reqs[clients[c][k]].peer.Some?
      modifies this
      ensures View() == Release(old(View()), c, k, empty)
    {
      var id := clients[c][k];
      var reply := reqs[id].peer.value;
      clients := clients[c := RemoveAt(clients[c], k)];
      ReqPut(id);
      if empty {
        hist := hist.(empty := hist.empty + {id});
      } else if c in hist.sent {
        hist := hist.(sent := hist.sent[c := hist.sent[c] + [id]], replies := hist.replies[id := reply]);
      }
    }

    /** msg_send_chain on a client: at most `limit` replies are collected and written; the first
        `full` of them went out completely. */
    method SendReplies(c: ConnId, limit: nat, full: nat, zero: set<MsgId>, part: nat)
      requires Inv(View(), Closed) && c in clients
      modifies this
      ensures View() == C.ClientSend(old(View()), c, limit, full, zero, part)
    {
      C.QueueLive(View(), c, Closed);
      var m := Collect(c, limit);
      var n, empty := if full <= m then full else m, zero * hist.parts;
      var stays := C.Stays(clients[c], n, m, empty);
      Finished(c, m, n, empty);
      if stays { Progress(c, part); }
    }

    /** Some bytes of the first reply have been written: its mbufs start further behind. */
    method Progress(c: ConnId, part: nat)
      requires Inv(View(), Closed) && c in clients
      modifies this`reqs
      ensures View() == C.Advance(old(View()), c, part)
    {
      if |clients[c]| > 0 {
        var id := clients[c][0];
        C.HeadAlive(View(), c);
        reqs := reqs[id := reqs[id].(off := reqs[id].off + part)];
      }
    }

    method Collect(c: ConnId, limit: nat) returns (m: nat)
      requires Inv(View(), Closed) && C.Picked(View(), c, 0)
      modifies this
      ensures (View(), m) == C.Picks(old(View()), c, 0, limit)
    {
      ghost var all := C.Picks(View(), c, 0, limit);
      m := 0;
      var left := limit;
      var more := left > 0 && m < |clients[c]|;
      CollectStart(View(), c, limit);
      while more
        invariant Inv(View(), Closed) && C.Picked(View(), c, m)
        invariant more ==> left > 0 && m < |clients[c]| && Collecting(all, View(), c, m, left)
        invariant !more ==> all == (View(), m)
        decreases left, more
      {
        more, m, left := CollectNext(c, m, left, all);
      }
    }

    method CollectNext(c: ConnId, m: nat, left: nat, ghost all: (State, nat)) returns (more: bool, m': nat, left': nat)
      requires Inv(View(), Closed) && C.Picked(View(), c, m) && left > 0 && m < |clients[c]|
      requires Collecting(all, View(), c, m, left)
      modifies this
      ensures Inv(View(), Closed) && C.Picked(View(), c, m')
      ensures more ==> left' > 0 && m' < |clients[c]| && Collecting(all, View(), c, m', left')
      ensures !more ==> all == (View(), m')
      ensures left' < left || (left' == left && !more)
    {
      more, m', left' := CollectOne(c, m, left, all);
      if more { more := left' > 0 && m' < |clients[c]|; }
    }

    method CollectOne(c: ConnId, m: nat, left: nat, ghost all: (State, nat)) returns (yes: bool, m': nat, left': nat)
      requires Inv(View(), Closed) && C.Picked(View(), c, m) && m < |clients[c]| && left > 0
      requires Collecting(all, View(), c, m, left)
      modifies this
      ensures Inv(View(), Closed) && C.Picked(View(), c, m') && left' == if yes then left - 1 else left
      ensures yes ==> Collecting(all, View(), c, m', left')
      ensures yes && (left' == 0 || m' == |clients[c]|) ==> all == (View(), m')
      ensures !yes ==> all == (View(), m')
    {
      m', left' := m + 1, left - 1;
      CollectStep(all, View(), c, m, left, m', left');
      ghost var p := C.Pick(View(), c, m);
      yes := RspSendNext(c, m);
      assert View() == p.0 && yes == p.1;
      if !yes { m', left' := m, left; }
    }

    method Finished(c: ConnId, m: nat, full: nat, zero: set<MsgId>)
      requires Inv(View(), Closed) && C.Picked(View(), c, m) && full <= m && zero <= hist.parts
      modifies this
      ensures View() == C.Releases(old(View()), c, 0, m, full, zero)
    {
      ghost var all := C.Releases(View(), c, 0, m, full, zero);
      var k: nat, left: nat, sent: nat := 0, m, full;
      while k < left
        invariant k <= left && sent <= left - k && (sent > 0 ==> k == 0)
        invariant Inv(View(), Closed) && C.Picked(View(), c, left) && zero <= hist.parts
        invariant Releasing(all, View(), c, k, left, sent, zero)
        decreases left - k
      {
        k, left, sent := FinishOne(c, k, left, sent, zero, all);
      }
      ReleaseEnd(all, View(), c, k, left, sent, zero);
    }

    method FinishOne(c: ConnId, k: nat, left: nat, sent: nat, zero: set<MsgId>, ghost all: State)
      returns (k': nat, left': nat, sent': nat)
      requires Inv(View(), Closed) && C.Picked(View(), c, left) && k < left && sent <= left - k && zero <= hist.parts
      requires (sent > 0 ==> k == 0) && Releasing(all, View(), c, k, left, sent, zero)
      modifies this
      ensures k' <= left' && sent' <= left' - k' && (sent' > 0 ==> k' == 0) && left' - k' < left - k
      ensures Inv(View(), Closed) && C.Picked(View(), c, left') && zero <= hist.parts
      ensures Releasing(all, View(), c, k', left', sent', zero)
    {
      ghost var v := View();
      ReleaseStep(all, v, c, k, left, sent, zero);
      var empty := clients[c][k] in zero;
      k', left', sent' := k, left, sent;
      if sent > 0 || empty {
        RspSendDone(c, k, empty);
        assert View() == Release(v, c, k, empty);
        left' := left - 1;
        if sent > 0 { sent' := sent - 1; }
      } else {
        k' := k + 1;
      }
    }

    /** client_close. */
    method ClientClose(c: ConnId)
      requires Inv(View(), Closed) && c in clients
      modifies this
      ensures View() == C.ClientClose(old(View()), c)
    {
      ghost var s := View();
      C.QueueLive(s, c, Closed);
      var q := clients[c];
      var i := 0;
      while i < |q|
        invariant 0 <= i <= |q| && clients == s.clients && NoDup(q[i..])
        invariant forall j :: i <= j < |q| ==> q[j] in reqs
        invariant forall j :: 0 <= j < |q[i..]| ==> q[i..][j] in reqs
        invariant Drain(s, q) == Drain(View(), q[i..])
      {
        var id := q[i];
        assert q[i..][0] == id && q[i..][1..] == q[i + 1..];
        if reqs[id].done {
          ReqPut(id);
        } else {
          reqs := reqs[id := reqs[id].(swallow := true)];
        }
        i := i + 1;
      }
      clients := clients - {c};
    }

    // ---------- Requests come in ----------

    /** A request enters the out queue of its client and the in queue of its server connection: the
        enqueue handlers, with the timeout that is started. */
    method Enqueue(r: Req, head: bool, now: int)
      requires (!r.noreply && !r.swallow ==> r.client in clients) && (r.at.Some? ==> r.at.value in servers)
      modifies this
      ensures View() == Add(old(View()), r, head, now)
    {
      var id := nextId;
      nextId := nextId + 1;
      reqs := reqs[id := r];
      hist := AddHistory(hist, r, id);
      if !r.noreply && !r.swallow { clients := clients[r.client := clients[r.client] + [id]]; }
      if r.at.Some? {
        var sid := r.at.value;
        if !r.noreply && timeout > 0 { timers := TmoInsert(timers, Timer(id, sid, now + timeout)); }
        servers := servers[sid := Push(servers[sid], id, head)];
      }
    }

    /** req_forward. */
    method ReqForward(r: Req, route: H.Route, ghost open: Open)
      requires Inv(View(), open) && H.Forwardable(View(), r, open) && H.Reachable(View(), route)
      modifies this
      ensures View() == H.Forward(old(View()), r, route, open)
    {
      match route {
        case To(sid, auth, now) =>
          if auth {
            ghost var s1 := H.Handshake(View(), r.client, sid, false, now, open);
            Enqueue(H.HandshakeReq(r.client, sid), false, now);
            assert View() == s1;
          }
          ghost var s2 := H.ForwardTo(View(), r, sid, now, open);
          Enqueue(r.(at := Some(sid)), false, now);
        case Nowhere(err) =>
          if r.noreply {
            hist := hist.(freed := hist.freed + [nextId]);
            nextId := nextId + 1;
          } else {
            ghost var s1 := H.AddFailed(View(), r, err, open);
            Enqueue(H.Routed(r, route), false, 0);
            assert View() == s1;
            Announce(r.client, H.Left(open));
          }
      }
    }

    /** req_recv_done, for a request that is forwarded as it is. */
    method RecvSingle(c: ConnId, noreply: bool, route: H.Route)
      requires Inv(View(), Closed) && c in clients && H.Reachable(View(), route)
      modifies this
      ensures View() == H.RecvSingle(old(View()), c, noreply, route)
    {
      M.Fresh(View(), Closed);
      ReqForward(H.SingleReq(c, noreply), route, Closed);
    }

    /** req_recv_done, for a request that was split into one fragment per route. */
    method RecvVector(c: ConnId, routes: seq<H.Route>)
      requires Inv(View(), Closed) && c in clients && routes != [] && H.AllReachable(View(), routes)
      modifies this
      ensures View() == H.RecvVector(old(View()), c, routes)
    {
      ghost var s0 := H.OpenVector(View(), c, routes);
      var o, f := nextId, nextFrag;
      nextFrag := nextFrag + 1;
      Enqueue(H.OwnerReq(c, o, f, |routes|), false, 0);
      assert View() == s0;
      Fragments(o, routes);
    }

    method Fragments(o: MsgId, routes: seq<H.Route>)
      requires Inv(View(), H.OpenFor(o, routes)) && H.AllReachable(View(), routes)
      modifies this
      ensures View() == H.Fragments(old(View()), o, routes)
    {
      ghost var all := H.Fragments(View(), o, routes);
      var i := 0;
      while i < |routes|
        invariant 0 <= i <= |routes| && Inv(View(), H.OpenFor(o, routes[i..])) && H.AllReachable(View(), routes[i..])
        invariant H.Fragments(View(), o, routes[i..]) == all
      {
        ghost var rest := routes[i..];
        assert rest[0] == routes[i] && rest[1..] == routes[i + 1..];
        H.FragFits(View(), o, |rest|);
        ghost var s1 := H.Forward(View(), H.FragReq(reqs[o].client, o, reqs[o].fragId), rest[0], Opened(o, |rest|));
        H.FragmentsStep(View(), o, rest);
        ReqForward(H.FragReq(reqs[o].client, o, reqs[o].fragId), routes[i], Opened(o, |rest|));
        assert View() == s1;
        i := i + 1;
      }
    }

    // ---------- Server connections ----------

    /** req_done on the first request of a client's queue, when something happened to one of its requests. */
    method Announce(c: ConnId, ghost open: Open)
      requires Inv(View(), open) && c in clients
      modifies this
      ensures View() == H.Notify(old(View()), c, open)
    {
      if clients[c] != [] {
        var yes := ReqDone(c, 0, open);
      }
    }

    /** What rsp_forward and server_close do to a request once it has left its server queue. */
    method Settle(sid: ConnId, v: ServerConn, id: MsgId, r: Req, h: History, out: bool)
      requires Inv(View(), Closed) && S.Settles(View(), sid, v, id, r, h)
      modifies this
      ensures View() == S.Settle(old(View()), sid, v, id, r, h, out)
    {
      ghost var s1 := S.Finish(View(), sid, v, id, r, h);
      servers, hist := servers[sid := v], h;
      reqs := reqs[id := r.(done := true, at := None)];
      assert View() == s1;
      if out { timers := TmoDelete(timers, id); }
      assert View() == if out then S.CancelDone(s1, id) else s1;
      CountDone(r.fragOwner);
      Announce(r.client, Closed);
    }

    /** The owner of a fragment that is done counts it. */
    method CountDone(owner: Option<MsgId>)
      requires Inv(View(), Closed) && (owner.Some? ==> owner.value in reqs)
      modifies this`reqs
      ensures View() == S.BumpOwner(old(View()), owner)
    {
      if owner.Some? {
        var o := owner.value;
        reqs := reqs[o := reqs[o].(nfragDone := reqs[o].nfragDone + 1)];
      }
    }

    /** req_send_done: the first request of the in queue has been written. */
    method ReqSendDone(sid: ConnId)
      requires Inv(View(), Closed) && sid in servers && sid in hist.wire && servers[sid].inq != []
      modifies this
      ensures View() == S.ServerSend(old(View()), sid)
    {
      var v := servers[sid];
      var id := v.inq[0];
      S.ServerEntry(View(), sid, id, Closed);
      servers := servers[sid := v.(inq := v.inq[1..])];
      if !reqs[id].noreply {
        servers := servers[sid := ServerConn(v.inq[1..], v.outq + [id])];
        hist := hist.(wire := hist.wire[sid := hist.wire[sid] + [id]]);
      } else {
        ReqPut(id);
      }
    }

    /** rsp_filter and rsp_forward: the backend's answer x is for the first request of the out queue. */
    method RspRecvDone(sid: ConnId, x: int, bad: bool)
      requires Inv(View(), Closed) && sid in servers && sid in hist.wire && hist.wire[sid] != []
      modifies this
      ensures View() == S.Respond(old(View()), sid, x, bad)
    {
      S.AnswerSettles(View(), sid, x, bad);
      var v := servers[sid];
      var id := v.outq[0];
      var v' := v.(outq := v.outq[1..]);
      var h := S.AnswerHistory(hist, sid, x);
      if reqs[id].swallow {
        servers, hist := servers[sid := v'], h;
        ReqPut(id);
      } else {
        Settle(sid, v', id, S.WithAnswer(reqs[id], x, bad), h, true);
      }
    }

    /** One turn of a loop of server_close. */
    method FailOne(sid: ConnId, v: ServerConn, id: MsgId, err: int, out: bool)
      requires Inv(View(), Closed) && sid in servers && sid !in hist.wire && Takes(servers[sid], id, v)
      requires id in reqs && reqs[id].at == Some(sid)
      modifies this
      ensures View() == S.FailOne(old(View()), sid, v, id, err, out)
    {
      S.FailSettles(View(), sid, v, id, err);
      if reqs[id].swallow || reqs[id].noreply {
        servers := servers[sid := v];
        ReqPut(id);
      } else {
        Settle(sid, v, id, S.Failed(reqs[id], err), hist, out);
      }
    }

    /** The two loops of server_close. */
    method FailAll(sid: ConnId, err: int)
      requires Inv(View(), Closed) && sid in servers && sid !in hist.wire
      modifies this
      ensures View() == S.FailAll(old(View()), sid, err)
    {
      ghost var all := S.FailAll(View(), sid, err);
      while servers[sid].inq != []
        invariant Inv(View(), Closed) && sid in servers && sid !in hist.wire
        invariant S.FailAll(View(), sid, err) == all
        decreases |servers[sid].inq|
      {
        var v := servers[sid];
        S.ServerEntry(View(), sid, v.inq[0], Closed);
        TakeIn(v);
        FailOne(sid, v.(inq := v.inq[1..]), v.inq[0], err, false);
      }
      while servers[sid].outq != []
        invariant Inv(View(), Closed) && sid in servers && sid !in hist.wire && servers[sid].inq == []
        invariant S.FailAll(View(), sid, err) == all
        decreases |servers[sid].outq|
      {
        var v := servers[sid];
        S.ServerEntry(View(), sid, v.outq[0], Closed);
        TakeOut(v);
        FailOne(sid, v.(outq := v.outq[1..]), v.outq[0], err, true);
      }
    }

    /** server_close. */
    method ServerClose(sid: ConnId, err: int)
      requires Inv(View(), Closed) && sid in servers
      modifies this
      ensures View() == S.CloseServer(old(View()), sid, err)
    {
      InvUnwire(View(), sid);
      hist := hist.(wire := hist.wire - {sid});
      FailAll(sid, err);
      servers := servers - {sid};
    }

    /** core_timeout; nows are the readings of the clock, n says how many were taken. */
    method CoreTimeout(nows: seq<int>) returns (n: nat)
      requires Inv(View(), Closed) && |timers| < |nows|
      modifies this
      ensures (View(), n) == S.Timeouts(old(View()), nows)
    {
      ghost var all := S.Timeouts(View(), nows);
      n := 0;
      while timers != []
        invariant Inv(View(), Closed) && n + |timers| < |nows|
        invariant S.Timeouts(View(), nows[n..]).0 == all.0 && S.Timeouts(View(), nows[n..]).1 + n == all.1
        decreases |timers|
      {
        S.FirstTimer(View());
        var t := timers[0];
        if reqs[t.id].error || reqs[t.id].done {
          ghost var s1 := S.DropTimer(View());
          timers := timers[1..];
          continue;
        }
        var now := nows[n];
        n := n + 1;
        if now < t.deadline { return; }
        Expire();
      }
    }

    /** The connection of the first request in the timeout tree is closed. */
    method Expire()
      requires Inv(View(), Closed) && timers != [] && timers[0].id in reqs && !reqs[timers[0].id].done
      modifies this
      ensures View() == S.Expire(old(View()))
    {
      S.FirstTimer(View());
      var t := timers[0];
      InvUnwire(View(), t.conn);
      hist := hist.(wire := hist.wire - {t.conn});
      ghost var s2 := S.CancelDone(View(), t.id);
      timers := TmoDelete(timers, t.id);
      FailAll(t.conn, S.ETIMEDOUT);
      servers := servers - {t.conn};
    }
  }


  // ---------- Steps of RspMakeError ----------

  lemma MarkedStart(s: State, v: State, c: ConnId, k: nat) returns (t: State)
    requires Inv(s, Closed) && C.CanFail(s, c, k) && H.IsError(s.reqs, s.clients[c], s.clients[c][k])
    requires v == s.(reqs := ErrorMarked(s.reqs, s.clients[c], s.clients[c][k]))
    ensures Dropping(s, t, v, c, k, C.Followers(s, c, k), 0, C.Followers(s, c, k))
  {
    var q := s.clients[c];
    var id := q[k];
    C.QueueLive(s, c, Closed);
    C.FailureStands(s, c, k, C.ErrOf(s, c, k));
    t := SetPeer(s, id, Failure(C.ErrOf(s, c, k)));
    MarkedAtStart(s, t, v, c, k);
    assert q == q[..k + 1] + q[k + 1..];
  }

  lemma MarkedAtStart(s: State, t: State, v: State, c: ConnId, k: nat)
    requires Inv(s, Closed) && C.CanFail(s, c, k) && H.IsError(s.reqs, s.clients[c], s.clients[c][k])
    requires v == s.(reqs := ErrorMarked(s.reqs, s.clients[c], s.clients[c][k]))
    requires t == SetPeer(s, s.clients[c][k], Failure(C.ErrOf(s, c, k)))
    ensures MarkedLike(s, t, v, s.clients[c][k])
  {
    var q := s.clients[c];
    var id := q[k];
    assert id in q;
    H.Entry(s, c, id, Closed);
    forall x | x in v.reqs && x != id && v.reqs[x] != s.reqs[x]
      ensures s.reqs[x].fragId == s.reqs[id].fragId && s.reqs[x].client == c && s.reqs[x].done
    {
      assert x in Members(s.reqs, q, s.reqs[id].fragId);
      H.Entry(s, c, x, Closed);
      var i, j :| 0 <= i < |q| && 0 <= j < |q| && q[i] == x && q[j] == id;
      assert s.reqs[q[i]].fdone == s.reqs[q[j]].fdone;
    }
  }

  lemma MarkedStep(s: State, t: State, v: State, c: ConnId, k: nat, n: nat, i: nat, rest: nat) returns (t': State)
    requires Dropping(s, t, v, c, k, n, i, rest) && rest > 0
    requires c in v.clients && k + 1 < |v.clients[c]|
    ensures c in t.clients && k + 1 < |t.clients[c]| && t' == Drop(t, c, k + 1)
    ensures Dropping(s, t', Drop(v, c, k + 1), c, k, n, i + 1, rest - 1)
  {
    assert Lock(2, 0);
    t' := Drop(t, c, k + 1);
    var q := s.clients[c];
    C.InvDrop(t, c, k, rest);
    C.DropKeeps(t, c, k, rest);
    DroppedQueue(q, k, i);
    DroppedLike(s, t, v, c, k, q[k]);
    DropNextStep(t, c, k, rest);
    DroppingAgain(s, t, t', v, c, k, n, i, rest);
  }

  lemma DropNextStep(t: State, c: ConnId, k: nat, m: nat)
    requires Inv(t, Closed) && C.Stands(t, c, k, m) && m > 0
    requires Inv(Drop(t, c, k + 1), Closed) && C.Stands(Drop(t, c, k + 1), c, k, m - 1)
    ensures C.DropNext(t, c, k, m) == C.DropNext(Drop(t, c, k + 1), c, k, m - 1)
  {
  }

  lemma DroppingAgain(s: State, t: State, t': State, v: State, c: ConnId, k: nat, n: nat, i: nat, rest: nat)
    requires DroppingParts(s, t, v, c, k, n, i, rest) && rest > 0 && k + 1 < |t.clients[c]|
    requires t' == Drop(t, c, k + 1) && Inv(t', Closed) && C.Stands(t', c, k, rest - 1)
    requires t'.clients[c] == s.clients[c][..k + 1] + s.clients[c][k + 1 + (i + 1)..]
    requires MarkedLike(s, t', Drop(v, c, k + 1), s.clients[c][k])
    requires C.DropNext(t, c, k, rest) == C.DropNext(t', c, k, rest - 1)
    ensures Dropping(s, t', Drop(v, c, k + 1), c, k, n, i + 1, rest - 1)
  {
    assert DroppingParts(s, t', Drop(v, c, k + 1), c, k, n, i + 1, rest - 1);
  }

  lemma DroppedQueue(q: seq<MsgId>, k: nat, i: nat)
    requires k + 1 + i < |q|
    ensures RemoveAt(q[..k + 1] + q[k + 1 + i..], k + 1) == q[..k + 1] + q[k + 1 + (i + 1)..]
  {
  }

  lemma DroppedLike(s: State, t: State, v: State, c: ConnId, k: nat, id: MsgId)
    requires MarkedLike(s, t, v, id) && c in t.clients && k + 1 < |t.clients[c]| && t.clients[c][k + 1] != id
    ensures MarkedLike(s, Drop(t, c, k + 1), Drop(v, c, k + 1), id)
  {
  }

  lemma MarkedNext(s: State, t: State, v: State, c: ConnId, k: nat, n: nat, i: nat, rest: nat)
    requires Dropping(s, t, v, c, k, n, i, rest) && i + rest == n
    requires Inv(s, Closed) && C.CanFail(s, c, k) && n == C.Followers(s, c, k) && s.reqs[s.clients[c][k]].fragId != 0
    ensures c in v.clients
    ensures var f := s.reqs[s.clients[c][k]].fragId;
      && Live(v.reqs, v.clients[c])
      && (rest > 0 <==> k + 1 < |v.clients[c]| && v.reqs[v.clients[c][k + 1]].fragId == f)
      && (rest > 0 ==> v.reqs[v.clients[c][k + 1]].err == C.Errs(s.reqs, s.clients[c], k + 1, n)[i])
  {
    assert Lock(2, 0);
    var q := s.clients[c];
    C.QueueLive(t, c, Closed);
    C.QueueLive(s, c, Closed);
    if k + 1 < |v.clients[c]| {
      var x := v.clients[c][k + 1];
      assert x == q[k + 1 + i];
      assert x in t.reqs && x != q[k];
    }
  }

  lemma MarkedEnd(s: State, t: State, v: State, c: ConnId, k: nat, n: nat, err: int)
    requires Dropping(s, t, v, c, k, n, n, 0) && Inv(s, Closed) && C.CanFail(s, c, k) && err == C.ErrOf(s, c, k)
    ensures s.clients[c][k] in v.reqs
    ensures var id := s.clients[c][k];
      v.(reqs := v.reqs[id := v.reqs[id].(peer := Some(Failure(err)))]) == C.Blame(s, c, k)
  {
    assert Lock(2, 0);
    var id := s.clients[c][k];
    var t0 := SetPeer(s, id, Failure(err));
    assert t == C.DropNext(t0, c, k, n);
    C.DropKeepsHead(t0, c, k, n);
    if s.reqs[id].fragId != 0 {
      C.FailureMarks(s, c, k, err);
      forall x | x in v.reqs && x != id ensures v.reqs[x] == t.reqs[x] {
        LastMember(t, c, id, x);
      }
    }
    EndsEqual(s, t, v, id, err);
  }

  lemma EndsEqual(s: State, t: State, v: State, id: MsgId, err: int)
    requires MarkedLike(s, t, v, id) && t.reqs[id].peer == Some(Failure(err))
    requires forall x :: x in v.reqs && x != id ==> v.reqs[x] == t.reqs[x]
    ensures v.(reqs := v.reqs[id := v.reqs[id].(peer := Some(Failure(err)))]) ==
      if s.reqs[id].fragId == 0 || s.reqs[id].error then t
      else t.(reqs := t.reqs[id := t.reqs[id].(ferror := true)])
  {
    var a := v.reqs[id := v.reqs[id].(peer := Some(Failure(err)))];
    var b := if s.reqs[id].fragId == 0 || s.reqs[id].error then t.reqs else t.reqs[id := t.reqs[id].(ferror := true)];
    forall x | x in a ensures x in b && a[x] == b[x] {}
    assert a == b;
  }

  lemma LastMember(t: State, c: ConnId, id: MsgId, x: MsgId)
    requires Inv(t, Closed) && c in t.clients && id in t.reqs && Alone(t.reqs, t.clients[c], id) && x in t.reqs
      && x != id
    ensures t.reqs[x].client == c && t.reqs[x].done ==> t.reqs[x].fragId != t.reqs[id].fragId
  {
    Unfold(t, Closed);
    assert ReqOk(t, x, t.reqs[x]);
    if t.reqs[x].client == c && t.reqs[x].done {
      var i :| 0 <= i < |t.clients[c]| && t.clients[c][i] == x;
    }
  }

  // ---------- Steps of SendReplies ----------

  ghost predicate Collecting(all: (State, nat), v: State, c: ConnId, m: nat, left: nat) {
    forall u :: Lock(2, u) ==> CollectingParts(all, v, c, m, left)
  }

  ghost predicate CollectingParts(all: (State, nat), v: State, c: ConnId, m: nat, left: nat) {
    Inv(v, Closed) && C.Picked(v, c, m) && all == C.Picks(v, c, m, left)
  }

  lemma CollectStart(s: State, c: ConnId, limit: nat)
    requires Inv(s, Closed) && C.Picked(s, c, 0)
    ensures Collecting(C.Picks(s, c, 0, limit), s, c, 0, limit)
    ensures limit == 0 || |s.clients[c]| == 0 ==> C.Picks(s, c, 0, limit) == (s, 0)
  {
  }

  lemma CollectStep(all: (State, nat), v: State, c: ConnId, m: nat, left: nat, k: nat, rest: nat)
    requires Collecting(all, v, c, m, left) && left == rest + 1 && k == m + 1
    requires Inv(v, Closed) && C.Picked(v, c, m) && m < |v.clients[c]|
    ensures var p := C.Pick(v, c, m);
      && (p.1 ==> C.Picked(p.0, c, k) && Collecting(all, p.0, c, k, rest))
      && (p.1 && (rest == 0 || k == |p.0.clients[c]|) ==> all == (p.0, k))
      && (!p.1 ==> C.Picked(p.0, c, m) && all == (p.0, m))
  {
    assert Lock(2, 0);
    var p := C.Pick(v, c, m);
    C.PicksMore(v, c, m, left);
    if p.1 {
      assert CollectingParts(all, p.0, c, k, rest);
      if rest == 0 || k == |p.0.clients[c]| { C.PicksStop(p.0, c, k, rest); }
    }
  }

  ghost predicate Releasing(all: State, v: State, c: ConnId, k: nat, m: nat, sent: nat, zero: set<MsgId>) {
    forall u :: Lock(2, u) ==> ReleasingParts(all, v, c, k, m, sent, zero)
  }

  ghost predicate ReleasingParts(all: State, v: State, c: ConnId, k: nat, m: nat, sent: nat, zero: set<MsgId>) {
    && Inv(v, Closed) && C.Picked(v, c, m) && k <= m && sent <= m - k && (sent > 0 ==> k == 0) && zero <= v.hist.parts
    && all == C.Releases(v, c, k, m, sent, zero)
  }

  lemma ReleaseEnd(all: State, v: State, c: ConnId, k: nat, m: nat, sent: nat, zero: set<MsgId>)
    requires Releasing(all, v, c, k, m, sent, zero) && k == m
    ensures all == v
  {
    assert Lock(2, 0);
  }

  lemma ReleaseStep(all: State, v: State, c: ConnId, k: nat, m: nat, sent: nat, zero: set<MsgId>)
    requires Releasing(all, v, c, k, m, sent, zero)
    requires Inv(v, Closed) && C.Picked(v, c, m) && k < m && sent <= m - k && (sent > 0 ==> k == 0)
      && zero <= v.hist.parts
    ensures v.clients[c][k] in v.reqs && v.reqs[v.clients[c][k]].peer.Some?
    ensures var empty := v.clients[c][k] in zero;
      if sent > 0 || empty then
        var v' := Release(v, c, k, empty);
        && Inv(v', Closed) && C.Picked(v', c, m - 1) && zero <= v'.hist.parts
        && (sent > 0 ==> Releasing(all, v', c, k, m - 1, sent - 1, zero))
        && (sent == 0 ==> Releasing(all, v', c, k, m - 1, sent, zero))
      else Releasing(all, v, c, k + 1, m, sent, zero)
  {
    assert Lock(2, 0);
    assert C.Ready(v.reqs, v.clients[c], k);
    var empty := v.clients[c][k] in zero;
    if sent > 0 || empty { var v' := C.ReleaseOne(v, c, k, m, empty); }
  }
}
