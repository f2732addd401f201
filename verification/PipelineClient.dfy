/** The handlers of client connections: choosing the replies to write, releasing them, closing. */
module PipelineClient {
  import opened Basics
  import opened Seqs
  import opened PipelineState
  import opened PipelineInv
  import opened PipelineQueues
  import opened PipelineMoves
  import opened PipelineFlags
  import opened PipelineConns
  import opened PipelineHandlers

  // ---------- Which replies are ready ----------

  ghost predicate NoErrorIn(reqs: map<MsgId, Req>, q: seq<MsgId>, f: nat)
    requires Live(reqs, q)
  {
    forall i :: 0 <= i < |q| && reqs[q[i]].fragId == f ==> !reqs[q[i]].error
  }

  /** The reply of the request is settled: a failure that stands for its whole vector, or the reply
      of a vector no member of which failed. */
  ghost predicate Ready(reqs: map<MsgId, Req>, q: seq<MsgId>, k: nat)
    requires Live(reqs, q) && k < |q|
  {
    var r := reqs[q[k]];
    && r.done && !Unlatched(r) && r.peer.Some?
    && ( || (r.peer.value.Failure? && (r.fragId == 0 || Alone(reqs, q, q[k])))
         || (!r.error && (r.fragId == 0 || NoErrorIn(reqs, q, r.fragId))))
  }

  ghost predicate Picked(s: State, c: ConnId, m: nat) {
    && c in s.clients && Live(s.reqs, s.clients[c]) && m <= |s.clients[c]|
    && forall k :: 0 <= k < m ==> Ready(s.reqs, s.clients[c], k)
  }

  lemma ReadyRemovable(s: State, c: ConnId, k: nat)
    requires Inv(s, Closed) && c in s.clients && k < |s.clients[c]| && Live(s.reqs, s.clients[c])
    requires Ready(s.reqs, s.clients[c], k)
    ensures Removable(s.reqs, s.hist, s.clients[c], k)
    ensures ReplyFits(s.hist, s.clients[c][k], s.reqs[s.clients[c][k]].peer.value)
  {
    Unfold(s, Closed);
    var q := s.clients[c];
    var id := q[k];
    var r := s.reqs[id];
    Entry(s, c, id, Closed);
    forall j | 0 <= j < |q| && j != k && q[j] in s.hist.parts && s.reqs[q[j]].error && s.reqs[q[j]].fdone
      ensures s.reqs[q[j]].fragOwner != Some(id)
    {
      assert q[j] != id;
      assert MemberOk(s.reqs, s.hist, q, q[j], Closed);
    }
    forall j | 0 <= j < |q| && j != k && r.error && s.reqs[q[j]].fragId == r.fragId
      ensures !(s.reqs[q[j]].peer.Some? && s.reqs[q[j]].peer.value.Coalesced?)
    {
      assert MemberOk(s.reqs, s.hist, q, q[j], Closed);
    }
    if r.peer.value.Coalesced? {
      var ps := r.peer.value.parts;
      forall i | 0 <= i < |ps|
        ensures s.hist.vectors[id][i] in s.hist.answers && ps[i] == Some(s.hist.answers[s.hist.vectors[id][i]])
      {
        var x := s.hist.vectors[id][i];
        assert PartFits(s.reqs, s.hist, q, r.fragId, x, ps[i]);
      }
    }
  }

  // ---------- A failed vector ----------

  /** How many requests from index i on are members of vector f. */
  function Following(reqs: map<MsgId, Req>, q: seq<MsgId>, i: nat, f: nat): (n: nat)
    requires Live(reqs, q) && i <= |q|
    ensures i + n <= |q| && (forall j :: i <= j < i + n ==> reqs[q[j]].fragId == f)
    ensures i + n < |q| ==> reqs[q[i + n]].fragId != f
    decreases |q| - i
  {
    if i < |q| && reqs[q[i]].fragId == f then 1 + Following(reqs, q, i + 1, f) else 0
  }

  /** The error codes of the n requests from index i on. */
  function Errs(reqs: map<MsgId, Req>, q: seq<MsgId>, i: nat, n: nat): (es: seq<int>)
    requires Live(reqs, q) && i + n <= |q|
    ensures |es| == n && forall j :: 0 <= j < n ==> es[j] == reqs[q[i + j]].err
  {
    seq(n, j requires 0 <= j < n => reqs[q[i + j]].err)
  }

  function FirstNonzero(es: seq<int>): int {
    if es == [] then 0 else if es[0] != 0 then es[0] else FirstNonzero(es[1..])
  }

  lemma PartRemovable(s: State, c: ConnId, k: nat)
    requires Inv(s, Closed) && c in s.clients && k + 1 < |s.clients[c]| && Live(s.reqs, s.clients[c])
    requires var q := s.clients[c];
      && q[k] !in s.hist.parts && s.reqs[q[k]].fragId == s.reqs[q[k + 1]].fragId != 0
      && !Unlatched(s.reqs[q[k]]) && s.reqs[q[k]].peer.Some? && s.reqs[q[k]].peer.value.Failure?
    ensures Removable(s.reqs, s.hist, s.clients[c], k + 1)
    ensures s.clients[c][k + 1] in s.hist.parts && s.reqs[s.clients[c][k + 1]].done
  {
    Unfold(s, Closed);
    var q := s.clients[c];
    var id := q[k + 1];
    Entry(s, c, id, Closed);
    assert s.reqs[q[k]].fdone == s.reqs[q[k + 1]].fdone;
    forall j | 0 <= j < |q| && j != k + 1 && s.reqs[q[j]].fragId == s.reqs[id].fragId
      ensures !(s.reqs[q[j]].peer.Some? && s.reqs[q[j]].peer.value.Coalesced?)
    {
      OwnerBefore(s.reqs, s.hist.parts, q, k, j);
      assert PairedAt(s.hist, q[j], s.reqs[q[j]]);
    }
    forall j | 0 <= j < |q| && j != k + 1 && q[j] in s.hist.parts && s.reqs[q[j]].error && s.reqs[q[j]].fdone
      ensures s.reqs[q[j]].fragOwner != Some(id)
    {
      assert MemberOk(s.reqs, s.hist, q, q[j], Closed);
    }
  }

  /** The request at index k answers for its vector with a failure. */
  ghost predicate Stands(s: State, c: ConnId, k: nat, n: nat) {
    && c in s.clients && Live(s.reqs, s.clients[c]) && k + n < |s.clients[c]|
    && var q := s.clients[c];
    && var r := s.reqs[q[k]];
    && r.done && !Unlatched(r) && r.peer.Some? && r.peer.value.Failure?
    && (n > 0 ==> q[k] !in s.hist.parts && r.fragId != 0)
    && (forall j :: k < j <= k + n ==> s.reqs[q[j]].fragId == r.fragId)
  }

  lemma InvDrop(s: State, c: ConnId, k: nat, n: nat)
    requires Inv(s, Closed) && Stands(s, c, k, n) && n > 0
    ensures Inv(Drop(s, c, k + 1), Closed)
    ensures Stands(Drop(s, c, k + 1), c, k, n - 1)
  {
    Unfold(s, Closed);
    var q := s.clients[c];
    var s' := Drop(s, c, k + 1);
    Entry(s, c, q[k], Closed);
    assert s.reqs[q[k + 1]].fragId == s.reqs[q[k]].fragId;
    PartRemovable(s, c, k);
    InvUnlink(s, c, k + 1, s');
    RemoveAtMembers(q, k + 1);
    assert q[k] != q[k + 1];
    forall j | 0 <= j < |s'.clients[c]| ensures s'.clients[c][j] in s'.reqs {
      assert s'.clients[c][j] in s'.clients[c];
    }
  }

  /** The n fragments behind index k are unlinked and recycled. */
  function DropNext(s: State, c: ConnId, k: nat, n: nat): (s': State)
    requires Inv(s, Closed) && Stands(s, c, k, n)
    ensures Inv(s', Closed) && Stands(s', c, k, 0) && s'.clients.Keys == s.clients.Keys
    ensures s'.servers == s.servers && s'.hist.wire == s.hist.wire && s'.timeout == s.timeout
    decreases n
  {
    if n == 0 then s
    else
      InvDrop(s, c, k, n);
      DropNext(Drop(s, c, k + 1), c, k, n - 1)
  }

  // ---------- Choosing what to write ----------

  lemma OthersGone(s: State, c: ConnId, k: nat, n: nat)
    requires Inv(s, Closed) && Stands(s, c, k, n) && n == 0
    requires s.clients[c][k] !in s.hist.parts && s.reqs[s.clients[c][k]].fragId != 0
    requires k + 1 < |s.clients[c]| ==> s.reqs[s.clients[c][k + 1]].fragId != s.reqs[s.clients[c][k]].fragId
    ensures Alone(s.reqs, s.clients[c], s.clients[c][k])
  {
    Unfold(s, Closed);
    var q := s.clients[c];
    Entry(s, c, q[k], Closed);
    forall i | 0 <= i < |q| && s.reqs[q[i]].fragId == s.reqs[q[k]].fragId ensures q[i] == q[k] {
      OwnerBefore(s.reqs, s.hist.parts, q, k, i);
    }
  }

  /** rsp_make_error may be called: the request fails for itself, or for the vector it owns. */
  ghost predicate CanFail(s: State, c: ConnId, k: nat) {
    && c in s.clients && Live(s.reqs, s.clients[c]) && k < |s.clients[c]|
    && var id := s.clients[c][k];
    && s.reqs[id].done && !Unlatched(s.reqs[id])
    && (s.reqs[id].fragId == 0 || id !in s.hist.parts || Alone(s.reqs, s.clients[c], id))
  }

  function Followers(s: State, c: ConnId, k: nat): (n: nat)
    requires c in s.clients && Live(s.reqs, s.clients[c]) && k < |s.clients[c]|
  {
    var f := s.reqs[s.clients[c][k]].fragId;
    if f == 0 then 0 else Following(s.reqs, s.clients[c], k + 1, f)
  }

  /** The error code a failed request is answered with. */
  function ErrOf(s: State, c: ConnId, k: nat): int
    requires c in s.clients && Live(s.reqs, s.clients[c]) && k < |s.clients[c]|
  {
    var r := s.reqs[s.clients[c][k]];
    if r.fragId == 0 then r.err else FirstNonzero(Errs(s.reqs, s.clients[c], k + 1, Followers(s, c, k)))
  }

  lemma FailureStands(s: State, c: ConnId, k: nat, err: int)
    requires Inv(s, Closed) && CanFail(s, c, k)
    ensures var s' := SetPeer(s, s.clients[c][k], Failure(err));
      Inv(s', Closed) && Stands(s', c, k, Followers(s, c, k)) && Live(s'.reqs, s.clients[c])
  {
    var q := s.clients[c];
    var id, n := q[k], Followers(s, c, k);
    assert id in q;
    Entry(s, c, id, Closed);
    InvSetFailure(s, id, err);
    if n > 0 { assert s.reqs[q[k + 1]].fragId == s.reqs[id].fragId; }
  }

  lemma QueueLive(s: State, c: ConnId, open: Open)
    requires Inv(s, open) && c in s.clients
    ensures NoDup(s.clients[c]) && Live(s.reqs, s.clients[c])
    ensures forall i :: 0 <= i < |s.clients[c]| ==> s.reqs[s.clients[c][i]].client == c
  {
    Unfold(s, open);
    assert ClientOk(s.reqs, c, s.clients[c]);
  }

  lemma DropKeeps(s: State, c: ConnId, k: nat, n: nat)
    requires Inv(s, Closed) && Stands(s, c, k, n) && n > 0
    ensures var q, s1 := s.clients[c], Drop(s, c, k + 1);
      && s1.clients[c][k] == q[k] && s1.reqs == s.reqs - {q[k + 1]} && q[k] != q[k + 1]
      && s1.hist.parts == s.hist.parts && |s1.clients[c]| == |q| - 1
      && (k + n + 1 < |q| ==> s1.clients[c][k + n] == q[k + n + 1] && q[k + n + 1] != q[k + 1])
  {
    QueueLive(s, c, Closed);
  }

  lemma DroppedAlone(s: State, c: ConnId, k: nat, n: nat)
    requires Inv(s, Closed) && Stands(s, c, k, n) && s.clients[c][k] !in s.hist.parts
    requires s.reqs[s.clients[c][k]].fragId != 0
    requires k + n + 1 < |s.clients[c]| ==> s.reqs[s.clients[c][k + n + 1]].fragId != s.reqs[s.clients[c][k]].fragId
    ensures var s' := DropNext(s, c, k, n);
      && s'.clients[c][k] == s.clients[c][k] && s'.reqs[s.clients[c][k]] == s.reqs[s.clients[c][k]]
      && Alone(s'.reqs, s'.clients[c], s.clients[c][k])
    decreases n
  {
    if n == 0 {
      OthersGone(s, c, k, 0);
    } else {
      InvDrop(s, c, k, n);
      var s1 := Drop(s, c, k + 1);
      DropKeeps(s, c, k, n);
      DroppedAlone(s1, c, k, n - 1);
    }
  }

  /** The request at index k is answered with a failure; of a failed vector, the fragments that still stand
      behind it are recycled, and the first error among them is the one to report. */
  function Blame(s: State, c: ConnId, k: nat): (s': State)
    requires Inv(s, Closed) && CanFail(s, c, k)
    ensures Inv(s', Closed) && s'.clients.Keys == s.clients.Keys && s.clients[c][k] in s'.reqs
    ensures s'.servers == s.servers && s'.hist.wire == s.hist.wire && s'.timeout == s.timeout
  {
    var id := s.clients[c][k];
    var r, n := s.reqs[id], Followers(s, c, k);
    var err := ErrOf(s, c, k);
    FailureStands(s, c, k, err);
    DropKeepsHead(SetPeer(s, id, Failure(err)), c, k, n);
    var s1 := DropNext(SetPeer(s, id, Failure(err)), c, k, n);
    if r.fragId == 0 || r.error then s1
    else
      FailureMarks(s, c, k, err);
      InvFerror(s1, c, id);
      s1.(reqs := s1.reqs[id := s1.reqs[id].(ferror := true)])
  }

  /** rsp_make_error. The reply is a new message, of which nothing has been written, even if some of the
      reply it replaces has. */
  function MakeError(s: State, c: ConnId, k: nat): (s': State)
    requires Inv(s, Closed) && CanFail(s, c, k)
    ensures Inv(s', Closed) && s'.clients.Keys == s.clients.Keys
    ensures s'.servers == s.servers && s'.hist.wire == s.hist.wire && s'.timeout == s.timeout
  {
    InvRestart(Blame(s, c, k), s.clients[c][k]);
    SetOff(Blame(s, c, k), s.clients[c][k], 0)
  }

  lemma FailureMarks(s: State, c: ConnId, k: nat, err: int)
    requires Inv(s, Closed) && CanFail(s, c, k) && s.reqs[s.clients[c][k]].fragId != 0
    requires var s0 := SetPeer(s, s.clients[c][k], Failure(err));
      Inv(s0, Closed) && Stands(s0, c, k, Followers(s, c, k))
    ensures var id := s.clients[c][k];
      var s1 := DropNext(SetPeer(s, id, Failure(err)), c, k, Followers(s, c, k));
      && id in s1.reqs && s1.reqs[id].client == c && s1.reqs[id].fdone
      && s1.reqs[id].peer.Some? && s1.reqs[id].peer.value.Failure?
      && Alone(s1.reqs, s1.clients[c], id)
  {
    var q, id, n := s.clients[c], s.clients[c][k], Followers(s, c, k);
    var s0 := SetPeer(s, id, Failure(err));
    QueueLive(s, c, Closed);
    if id !in s.hist.parts {
      assert k + n + 1 < |q| ==> s.reqs[q[k + n + 1]].fragId != s.reqs[id].fragId;
      DroppedAlone(s0, c, k, n);
    } else {
      assert n == 0;
    }
  }

  /** With everything before index k settled, a request found failed may be answered for. */
  lemma PickCanFail(s: State, c: ConnId, k: nat)
    requires Inv(s, Closed) && Picked(s, c, k) && k < |s.clients[c]|
    requires s.reqs[s.clients[c][k]].done && !Unlatched(s.reqs[s.clients[c][k]])
    requires IsError(s.reqs, s.clients[c], s.clients[c][k])
    ensures CanFail(s, c, k)
  {
    var q := s.clients[c];
    var id := q[k];
    assert id in q;
    Entry(s, c, id, Closed);
    var f := s.reqs[id].fragId;
    if f != 0 && id in s.hist.parts && !s.reqs[id].ferror {
      var e :| 0 <= e < |q| && s.reqs[q[e]].fragId == f && s.reqs[q[e]].error;
      FailedBehind(s, c, k, e);
      assert false;
    }
  }

  /** A settled request that shares its vector with another one has no failed member beside it. */
  lemma SettledClean(s: State, c: ConnId, m: nat, p: nat, k: nat)
    requires Picked(s, c, m) && p < m && k < |s.clients[c]| && NoDup(s.clients[c]) && p != k
    requires s.reqs[s.clients[c][p]].fragId == s.reqs[s.clients[c][k]].fragId != 0
    ensures NoErrorIn(s.reqs, s.clients[c], s.reqs[s.clients[c][k]].fragId)
  {
    var q := s.clients[c];
    assert Ready(s.reqs, q, p);
    assert q[p] != q[k];
  }

  /** No member of the vector of a fragment that is next to be picked has failed. */
  lemma FailedBehind(s: State, c: ConnId, k: nat, e: nat)
    requires Inv(s, Closed) && Picked(s, c, k) && k < |s.clients[c]| && e < |s.clients[c]|
    requires s.clients[c][k] in s.hist.parts && !Unlatched(s.reqs[s.clients[c][k]])
    requires s.reqs[s.clients[c][e]].fragId == s.reqs[s.clients[c][k]].fragId != 0
    ensures !s.reqs[s.clients[c][e]].error
  {
    var q := s.clients[c];
    assert q[e] in q;
    Entry(s, c, q[e], Closed);
    assert s.reqs[q[e]].fdone == s.reqs[q[k]].fdone;
    if q[e] !in s.hist.parts || s.reqs[q[e]].error {
      var p := if q[e] in s.hist.parts then PositionOf(q, s.reqs[q[e]].fragOwner.value) else e;
      OwnerBefore(s.reqs, s.hist.parts, q, p, k);
      SettledClean(s, c, k, p, k);
    }
  }

  ghost function PositionOf(q: seq<MsgId>, x: MsgId): (i: nat)
    requires x in q
    ensures i < |q| && q[i] == x
  {
    var i :| 0 <= i < |q| && q[i] == x;
    i
  }

  // ---------- Settled requests stay settled ----------

  lemma LatchKeepsReady(s: State, c: ConnId, o: MsgId, k: nat)
    requires Inv(s, Closed) && CanLatch(s, c, o, Closed) && k < |s.clients[c]| && Ready(s.reqs, s.clients[c], k)
    ensures var s' := Latch(s, s.clients[c], s.reqs[o].fragId, o);
      Live(s'.reqs, s.clients[c]) && Ready(s'.reqs, s.clients[c], k)
  {
    var q, s' := s.clients[c], Latch(s, s.clients[c], s.reqs[o].fragId, o);
    Unfold(s, Closed);
    assert q[k] in q;
    Entry(s, c, q[k], Closed);
    var p := PositionOf(q, o);
    assert s.reqs[q[p]].fragId == s.reqs[q[k]].fragId ==> s.reqs[q[p]].fdone == s.reqs[q[k]].fdone;
    forall i | 0 <= i < |q|
      ensures q[i] in s'.reqs && s'.reqs[q[i]].fragId == s.reqs[q[i]].fragId
        && s'.reqs[q[i]].error == s.reqs[q[i]].error
    {
      LatchedReq(s, c, o, q[i]);
    }
    assert s'.reqs[q[k]] == s.reqs[q[k]];
  }

  lemma ReqDoneKeepsPicked(s: State, c: ConnId, id: MsgId, m: nat)
    requires Inv(s, Closed) && Picked(s, c, m) && id in s.clients[c]
    ensures Picked(ReqDone(s, c, id, Closed).0, c, m)
  {
    var s', q := ReqDone(s, c, id, Closed).0, s.clients[c];
    Entry(s, c, id, Closed);
    QueueLive(s', c, Closed);
    if IsDone(s.reqs, q, id) && Unlatched(s.reqs[id]) {
      OwnerOf(s, c, id, Closed);
      forall k | 0 <= k < m ensures Ready(s'.reqs, q, k) {
        LatchKeepsReady(s, c, s.reqs[id].fragOwner.value, k);
      }
    }
  }

  lemma NoErrorReady(s: State, c: ConnId, k: nat)
    requires Inv(s, Closed) && c in s.clients && k < |s.clients[c]| && Live(s.reqs, s.clients[c])
    requires s.reqs[s.clients[c][k]].done && !Unlatched(s.reqs[s.clients[c][k]])
    requires !IsError(s.reqs, s.clients[c], s.clients[c][k])
    ensures Ready(s.reqs, s.clients[c], k)
  {
    assert s.clients[c][k] in s.clients[c];
    Entry(s, c, s.clients[c][k], Closed);
  }

  /** Unlinking one request keeps the requests before it settled. */
  lemma RemoveKeepsReady(reqs: map<MsgId, Req>, q: seq<MsgId>, i: nat, k: nat)
    requires Live(reqs, q) && NoDup(q) && i < |q| && k < |q| && k != i && Ready(reqs, q, k)
    ensures var q', k' := RemoveAt(q, i), if k < i then k else k - 1;
      Live(reqs - {q[i]}, q') && q'[k'] == q[k] && Ready(reqs - {q[i]}, q', k')
  {
    var reqs', q' := reqs - {q[i]}, RemoveAt(q, i);
    RemoveAtMembers(q, i);
    forall j | 0 <= j < |q'|
      ensures q'[j] in reqs' && reqs'[q'[j]] == reqs[q'[j]] && q'[j] == q[if j < i then j else j + 1] {
      assert q'[j] in q';
    }
  }

  lemma DropKeepsPicked(s: State, c: ConnId, k: nat, n: nat, m: nat)
    requires Inv(s, Closed) && Stands(s, c, k, n) && Picked(s, c, m) && m <= k
    ensures Picked(DropNext(s, c, k, n), c, m)
    decreases n
  {
    if n > 0 {
      InvDrop(s, c, k, n);
      QueueLive(s, c, Closed);
      var s1 := Drop(s, c, k + 1);
      forall j | 0 <= j < m ensures Ready(s1.reqs, s1.clients[c], j) {
        RemoveKeepsReady(s.reqs, s.clients[c], k + 1, j);
      }
      DropKeepsPicked(s1, c, k, n - 1, m);
    }
  }

  /** A change of one request's reply and mark keeps the other requests settled. */
  lemma OneKeepsPicked(s: State, c: ConnId, k: nat, r: Req, m: nat)
    requires Picked(s, c, m) && m <= k < |s.clients[c]| && NoDup(s.clients[c])
    requires r.fragId == s.reqs[s.clients[c][k]].fragId && r.error == s.reqs[s.clients[c][k]].error
    ensures Picked(s.(reqs := s.reqs[s.clients[c][k] := r]), c, m)
  {
    var q := s.clients[c];
    var reqs' := s.reqs[q[k] := r];
    forall j | 0 <= j < m ensures Ready(reqs', q, j) {
      assert Ready(s.reqs, q, j) && q[j] != q[k];
      assert forall i :: 0 <= i < |q| ==>
        reqs'[q[i]].fragId == s.reqs[q[i]].fragId && reqs'[q[i]].error == s.reqs[q[i]].error;
    }
  }

  /** Which replies are settled does not depend on how much of them is written. */
  lemma OffKeepsPicked(s: State, c: ConnId, id: MsgId, n: nat, m: nat)
    requires Picked(s, c, m) && id in s.reqs
    ensures Picked(SetOff(s, id, n), c, m)
  {
    var q, reqs' := s.clients[c], SetOff(s, id, n).reqs;
    assert forall i :: 0 <= i < |q| ==> reqs'[q[i]] == s.reqs[q[i]].(off := reqs'[q[i]].off);
    forall j | 0 <= j < m ensures Ready(reqs', q, j) {
      assert Ready(s.reqs, q, j);
    }
  }

  lemma MakeErrorPicked(s: State, c: ConnId, k: nat)
    requires Inv(s, Closed) && CanFail(s, c, k) && Picked(s, c, k)
    ensures Picked(MakeError(s, c, k), c, k + 1)
  {
    BlamePicked(s, c, k);
    OffKeepsPicked(Blame(s, c, k), c, s.clients[c][k], 0, k + 1);
  }

  lemma BlamePicked(s: State, c: ConnId, k: nat)
    requires Inv(s, Closed) && CanFail(s, c, k) && Picked(s, c, k)
    ensures Picked(Blame(s, c, k), c, k + 1)
  {
    var id := s.clients[c][k];
    var r, n := s.reqs[id], Followers(s, c, k);
    var err := ErrOf(s, c, k);
    FailureStands(s, c, k, err);
    QueueLive(s, c, Closed);
    var s0 := SetPeer(s, id, Failure(err));
    OneKeepsPicked(s, c, k, s0.reqs[id], k);
    DropKeepsPicked(s0, c, k, n, k);
    var s1 := DropNext(s0, c, k, n);
    DropKeepsHead(s0, c, k, n);
    if r.fragId != 0 { FailureMarks(s, c, k, err); }
    assert Ready(s1.reqs, s1.clients[c], k);
    if r.fragId != 0 && !r.error {
      QueueLive(s1, c, Closed);
      var r' := s1.reqs[id].(ferror := true);
      OneKeepsPicked(s1, c, k, r', k);
      AloneStill(s1, c, k, r');
    }
  }

  lemma AloneStill(s: State, c: ConnId, k: nat, r: Req)
    requires c in s.clients && Live(s.reqs, s.clients[c]) && k < |s.clients[c]|
    requires Ready(s.reqs, s.clients[c], k) && r == s.reqs[s.clients[c][k]].(ferror := true)
    ensures Ready(s.reqs[s.clients[c][k] := r], s.clients[c], k)
  {
    var q := s.clients[c];
    var reqs' := s.reqs[q[k] := r];
    assert forall i :: 0 <= i < |q| ==>
      reqs'[q[i]].fragId == s.reqs[q[i]].fragId && reqs'[q[i]].error == s.reqs[q[i]].error;
  }

  lemma DropKeepsHead(s: State, c: ConnId, k: nat, n: nat)
    requires Inv(s, Closed) && Stands(s, c, k, n)
    ensures var s' := DropNext(s, c, k, n);
      s'.clients[c][k] == s.clients[c][k] && s'.reqs[s.clients[c][k]] == s.reqs[s.clients[c][k]]
    decreases n
  {
    if n > 0 {
      InvDrop(s, c, k, n);
      DropKeeps(s, c, k, n);
      DropKeepsHead(Drop(s, c, k + 1), c, k, n - 1);
    }
  }

  /** Nothing more can be collected at index k: the queue ends there, or the request is not done. Stated for
      whoever asks, Lock(1, u). */
  ghost predicate Stopped(s: State, c: ConnId, k: nat) {
    forall u :: Lock(1, u) ==>
      c in s.clients && (k >= |s.clients[c]| ||
        (Live(s.reqs, s.clients[c]) && !IsDone(s.reqs, s.clients[c], s.clients[c][k])))
  }

  /** rsp_send_next: the reply of the request at index k is the next to be written, if it is done. */
  function Pick(s: State, c: ConnId, k: nat): (res: (State, bool))
    requires Inv(s, Closed) && Picked(s, c, k) && k < |s.clients[c]|
    ensures Inv(res.0, Closed) && Picked(res.0, c, if res.1 then k + 1 else k)
    ensures !res.1 ==> Stopped(res.0, c, k)
    ensures res.0.servers == s.servers && res.0.hist.wire == s.hist.wire && res.0.clients.Keys == s.clients.Keys
    ensures res.0.timeout == s.timeout
  {
    var id := s.clients[c][k];
    var d := ReqDone(s, c, id, Closed);
    ReqDoneKeepsPicked(s, c, id, k);
    if !d.1 then d
    else if IsError(d.0.reqs, s.clients[c], id) then
      PickCanFail(d.0, c, k);
      MakeErrorPicked(d.0, c, k);
      (MakeError(d.0, c, k), true)
    else
      NoErrorReady(d.0, c, k);
      d
  }

  /** The replies collected for one write: at most `limit` of them, as long as requests are done. */
  function Picks(s: State, c: ConnId, k: nat, limit: nat): (res: (State, nat))
    requires Inv(s, Closed) && Picked(s, c, k)
    ensures Inv(res.0, Closed) && Picked(res.0, c, res.1) && k <= res.1 <= k + limit
    ensures res.1 < k + limit ==> Stopped(res.0, c, res.1)
    ensures res.0.servers == s.servers && res.0.hist.wire == s.hist.wire && res.0.clients.Keys == s.clients.Keys
    ensures res.0.timeout == s.timeout
    decreases limit
  {
    if limit == 0 || k == |s.clients[c]| then (s, k)
    else
      var p := Pick(s, c, k);
      if p.1 then Picks(p.0, c, k + 1, limit - 1) else (p.0, k)
  }

  lemma PicksMore(s: State, c: ConnId, k: nat, limit: nat)
    requires Inv(s, Closed) && Picked(s, c, k) && limit > 0 && k < |s.clients[c]|
    ensures var p := Pick(s, c, k);
      Picks(s, c, k, limit) == if p.1 then Picks(p.0, c, k + 1, limit - 1) else (p.0, k)
  {
  }

  lemma PicksStop(s: State, c: ConnId, k: nat, limit: nat)
    requires Inv(s, Closed) && Picked(s, c, k) && (limit == 0 || k == |s.clients[c]|)
    ensures Picks(s, c, k, limit) == (s, k)
  {
  }

  /** One settled request is released: with the bytes of its reply written, or with no bytes to write. */
  function ReleaseOne(s: State, c: ConnId, k: nat, m: nat, empty: bool): (s': State)
    requires Inv(s, Closed) && Picked(s, c, m) && k < m
    requires if empty then s.clients[c][k] in s.hist.parts else k == 0
    ensures Inv(s', Closed) && Picked(s', c, m - 1)
    ensures s'.servers == s.servers && s'.hist.wire == s.hist.wire && s'.clients.Keys == s.clients.Keys
    ensures s'.timeout == s.timeout
    ensures s'.hist.parts == s.hist.parts
  {
    QueueLive(s, c, Closed);
    ReadyRemovable(s, c, k);
    ReleaseUnlinks(s, c, k, empty);
    InvUnlink(s, c, k, Release(s, c, k, empty));
    ReleaseKeepsPicked(s, c, k, m, empty);
    Release(s, c, k, empty)
  }

  lemma ReleaseUnlinks(s: State, c: ConnId, k: nat, empty: bool)
    requires Inv(s, Closed) && c in s.clients && k < |s.clients[c]| && s.clients[c][k] in s.reqs
    requires s.reqs[s.clients[c][k]].peer.Some?
      && ReplyFits(s.hist, s.clients[c][k], s.reqs[s.clients[c][k]].peer.value)
    requires if empty then s.clients[c][k] in s.hist.parts else k == 0
    ensures Unlinks(s, c, k, Release(s, c, k, empty).hist)
  {
    Unfold(s, Closed);
    assert c in s.hist.arrived && LoggedAt(s, c);
  }

  lemma ReleaseKeepsPicked(s: State, c: ConnId, k: nat, m: nat, empty: bool)
    requires Picked(s, c, m) && k < m && NoDup(s.clients[c]) && Ready(s.reqs, s.clients[c], k)
    ensures Picked(Release(s, c, k, empty), c, m - 1)
  {
    var q := s.clients[c];
    var s' := Release(s, c, k, empty);
    RemoveAtMembers(q, k);
    forall j | 0 <= j < |s'.clients[c]| ensures s'.clients[c][j] in s'.reqs {
      assert s'.clients[c][j] in s'.clients[c];
    }
    forall j | 0 <= j < m - 1 ensures Ready(s'.reqs, s'.clients[c], j) {
      RemoveKeepsReady(s.reqs, q, k, if j < k then j else j + 1);
    }
  }

  /**
    The second half of msg_send_chain. Of the requests from index k up to m, collected for one
    write, the first `full` have been written completely; of the rest, those whose reply has no
    bytes are released too. Only the replies of fragments, whose bytes went to their owner, are
    empty: `zero` names them.
  */
  function Releases(s: State, c: ConnId, k: nat, m: nat, full: nat, zero: set<MsgId>): (s': State)
    requires Inv(s, Closed) && Picked(s, c, m) && k <= m && full <= m - k && (full > 0 ==> k == 0)
    requires zero <= s.hist.parts
    ensures Inv(s', Closed) && c in s'.clients
    ensures s'.servers == s.servers && s'.hist.wire == s.hist.wire && s'.clients.Keys == s.clients.Keys
    ensures s'.timeout == s.timeout
    decreases m - k
  {
    if k == m then s
    else if full > 0 then
      Releases(ReleaseOne(s, c, 0, m, s.clients[c][0] in zero), c, 0, m - 1, full - 1, zero)
    else if s.clients[c][k] in zero then
      Releases(ReleaseOne(s, c, k, m, true), c, k, m - 1, 0, zero)
    else
      Releases(s, c, k + 1, m, 0, zero)
  }

  /** Of the replies collected, one has bytes and is not written completely. */
  predicate Stays(q: seq<MsgId>, full: nat, m: nat, zero: set<MsgId>)
    requires m <= |q|
  {
    exists i :: full <= i < m && q[i] !in zero
  }

  lemma HeadAlive(s: State, c: ConnId)
    requires Inv(s, Closed) && c in s.clients && s.clients[c] != []
    ensures s.clients[c][0] in s.reqs
  {
    Entry(s, c, s.clients[c][0], Closed);
  }

  function Offset(r: Req, part: nat): nat { r.off + part }

  lemma InvAdvance(s: State, c: ConnId, part: nat)
    requires Inv(s, Closed) && c in s.clients && s.clients[c] != []
    ensures s.clients[c][0] in s.reqs
    ensures Inv(SetOff(s, s.clients[c][0], Offset(s.reqs[s.clients[c][0]], part)), Closed)
  {
    HeadAlive(s, c);
    InvProgress(s, c, Offset(s.reqs[s.clients[c][0]], part));
  }

  /** Some bytes of the first reply have been written. */
  function Advance(s: State, c: ConnId, part: nat): (s': State)
    requires Inv(s, Closed) && c in s.clients
    ensures Inv(s', Closed) && s' == s.(reqs := s'.reqs)
  {
    if s.clients[c] == [] then s
    else
      InvAdvance(s, c, part);
      var id := s.clients[c][0];
      SetOff(s, id, Offset(s.reqs[id], part))
  }

  /** One write to a client: replies are collected, and those written are released. Of the first one that has
      bytes and is not written completely, which then comes first in the queue, `part` bytes are written. */
  function ClientSend(s: State, c: ConnId, limit: nat, full: nat, zero: set<MsgId>, part: nat): (s': State)
    requires Inv(s, Closed) && c in s.clients
    ensures Inv(s', Closed) && s'.servers == s.servers && s'.hist.wire == s.hist.wire
    ensures s'.clients.Keys == s.clients.Keys && s'.timeout == s.timeout
  {
    QueueLive(s, c, Closed);
    var p := Picks(s, c, 0, limit);
    var n, empty := if full <= p.1 then full else p.1, zero * p.0.hist.parts;
    var s1 := Releases(p.0, c, 0, p.1, n, empty);
    if Stays(p.0.clients[c], n, p.1, empty) then Advance(s1, c, part) else s1
  }

  /** client_close. */
  function ClientClose(s: State, c: ConnId): (s': State)
    requires Inv(s, Closed) && c in s.clients
    ensures Inv(s', Closed) && s'.clients.Keys == s.clients.Keys - {c}
    ensures s'.servers == s.servers && s'.hist.wire == s.hist.wire && s'.timeout == s.timeout
  {
    QueueLive(s, c, Closed);
    InvCloseClient(s, c);
    CloseKeeps(s, c);
    CloseClient(s, c)
  }

  lemma CloseKeeps(s: State, c: ConnId)
    requires Inv(s, Closed) && c in s.clients && NoDup(s.clients[c]) && Live(s.reqs, s.clients[c])
    ensures CloseClient(s, c).servers == s.servers && CloseClient(s, c).hist.wire == s.hist.wire
    ensures CloseClient(s, c).timeout == s.timeout
    ensures CloseClient(s, c).clients == s.clients - {c}
  {
    Unfold(s, Closed);
    DrainOk(s, s.clients[c]);
  }
}
