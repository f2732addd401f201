/** The error a failed vector is answered with: rsp_make_error finds it once. */
module PipelineErrors {
  import opened Basics
  import opened Seqs
  import opened PipelineState
  import opened PipelineInv
  import opened PipelineHandlers
  import opened PipelineClient
  import opened PipelineEffects

  lemma {:induction false} FirstNonzeroIs(es: seq<int>)
    ensures FirstNonzero(es) != 0 <==> exists i :: 0 <= i < |es| && es[i] != 0
    ensures FirstNonzero(es) != 0 ==>
      exists i :: 0 <= i < |es| && es[i] == FirstNonzero(es) && forall j :: 0 <= j < i ==> es[j] == 0
  {
    if es != [] {
      var rest := es[1..];
      FirstNonzeroIs(rest);
      if es[0] == 0 && FirstNonzero(rest) != 0 {
        var i :| 0 <= i < |rest| && rest[i] == FirstNonzero(rest) && forall j :: 0 <= j < i ==> rest[j] == 0;
        assert es[i + 1] == FirstNonzero(es);
        forall j | 0 <= j < i + 1 ensures es[j] == 0 { if j > 0 { assert rest[j - 1] == 0; } }
      }
      if es[0] == 0 && exists i :: 0 <= i < |es| && es[i] != 0 {
        var i :| 0 <= i < |es| && es[i] != 0;
        assert rest[i - 1] != 0;
      }
    }
  }

  ghost predicate Behind(s: State, c: ConnId, k: nat, j: int)
    requires c in s.clients && Live(s.reqs, s.clients[c]) && k < |s.clients[c]|
  {
    k < j <= k + Followers(s, c, k) && j < |s.clients[c]|
  }

  /** A fragment that stands directly behind the request at index k has an error code. */
  ghost predicate CodeBehind(s: State, c: ConnId, k: nat)
    requires c in s.clients && Live(s.reqs, s.clients[c]) && k < |s.clients[c]|
  {
    exists j :: Behind(s, c, k, j) && s.reqs[s.clients[c][j]].err != 0
  }

  /** rsp_make_error names an error for a failed vector exactly if a fragment with an error code still stands
      behind the owner; it is the first such fragment's. */
  lemma ErrorNamed(s: State, c: ConnId, k: nat)
    requires c in s.clients && Live(s.reqs, s.clients[c]) && k < |s.clients[c]|
    requires s.reqs[s.clients[c][k]].fragId != 0
    ensures ErrOf(s, c, k) != 0 <==> CodeBehind(s, c, k)
    ensures CodeBehind(s, c, k) ==>
      exists j :: Behind(s, c, k, j) && s.reqs[s.clients[c][j]].err == ErrOf(s, c, k) &&
        forall i :: k < i < j ==> s.reqs[s.clients[c][i]].err == 0
  {
    var q, n := s.clients[c], Followers(s, c, k);
    var es := Errs(s.reqs, q, k + 1, n);
    FirstNonzeroIs(es);
    if FirstNonzero(es) != 0 {
      var i :| 0 <= i < |es| && es[i] == FirstNonzero(es) && forall j :: 0 <= j < i ==> es[j] == 0;
      assert Behind(s, c, k, k + 1 + i) && s.reqs[q[k + 1 + i]].err == es[i];
      forall j | k < j < k + 1 + i ensures s.reqs[q[j]].err == 0 { assert es[j - k - 1] == 0; }
    }
    if CodeBehind(s, c, k) {
      var j :| Behind(s, c, k, j) && s.reqs[q[j]].err != 0;
      assert es[j - k - 1] != 0;
    }
  }

  /** The reply it makes, and the queue it leaves. */
  lemma ErrorMade(s: State, c: ConnId, k: nat)
    requires Inv(s, Closed) && CanFail(s, c, k) && s.reqs[s.clients[c][k]].fragId != 0
    ensures var s', id := MakeError(s, c, k), s.clients[c][k];
      && CanFail(s', c, k) && s'.clients[c][k] == id && Alone(s'.reqs, s'.clients[c], id)
      && s'.reqs[id].fragId == s.reqs[id].fragId && s'.reqs[id].peer == Some(Failure(ErrOf(s, c, k)))
      && s'.reqs[id].done && s'.reqs[id].fdone && (s'.reqs[id].error || s'.reqs[id].ferror)
  {
    var id, err, n := s.clients[c][k], ErrOf(s, c, k), Followers(s, c, k);
    FailureStands(s, c, k, err);
    FailureMarks(s, c, k, err);
    DropKeepsHead(SetPeer(s, id, Failure(err)), c, k, n);
    QueueLive(MakeError(s, c, k), c, Closed);
  }

  lemma NoneBehind(s: State, c: ConnId, k: nat)
    requires c in s.clients && Live(s.reqs, s.clients[c]) && k < |s.clients[c]| && NoDup(s.clients[c])
    requires s.reqs[s.clients[c][k]].fragId != 0 && Alone(s.reqs, s.clients[c], s.clients[c][k])
    ensures Followers(s, c, k) == 0
  {
    assert k + 1 < |s.clients[c]| ==> s.clients[c][k + 1] != s.clients[c][k];
  }

  /** Called again for the same request, it has no fragments left to find an error on, and the reply becomes
      that of an unknown error, whatever the first one said. */
  lemma ErrorForgotten(s: State, c: ConnId, k: nat)
    requires Inv(s, Closed) && CanFail(s, c, k) && s.reqs[s.clients[c][k]].fragId != 0
    ensures var s1, id := MakeError(s, c, k), s.clients[c][k];
      && CanFail(s1, c, k) && ErrOf(s1, c, k) == 0
      && id in MakeError(s1, c, k).reqs && MakeError(s1, c, k).reqs[id].peer == Some(Failure(0))
  {
    var s1 := MakeError(s, c, k);
    ErrorMade(s, c, k);
    QueueLive(s1, c, Closed);
    NoneBehind(s1, c, k);
    ErrorMade(s1, c, k);
  }

  /** A write of at most one reply that writes none completely. */
  lemma WritesNone(s: State, c: ConnId)
    requires Inv(s, Closed) && c in s.clients && s.clients[c] != [] && Picked(s, c, 0)
    ensures ClientSend(s, c, 1, 0, {}, 0) == Pick(s, c, 0).0
  {
    var p := Pick(s, c, 0);
    PicksMore(s, c, 0, 1);
    if p.1 { PicksStop(p.0, c, 1, 0); }
    var r := Picks(s, c, 0, 1);
    assert {} * r.0.hist.parts == {};
    assert r.0 == p.0;
  }

  /** The request at the head of the queue is a member of a failed vector whose turn it is. */
  ghost predicate FailedHead(s: State, c: ConnId) {
    && c in s.clients && s.clients[c] != [] && Live(s.reqs, s.clients[c])
    && s.reqs[s.clients[c][0]].fragId != 0 && IsDone(s.reqs, s.clients[c], s.clients[c][0])
  }

  lemma FailedPick(s: State, c: ConnId)
    requires Inv(s, Closed) && FailedHead(s, c) && Picked(s, c, 0)
    requires var d := ReqDone(s, c, s.clients[c][0], Closed); IsError(d.0.reqs, s.clients[c], s.clients[c][0])
    ensures var d := ReqDone(s, c, s.clients[c][0], Closed).0;
      CanFail(d, c, 0) && Pick(s, c, 0) == (MakeError(d, c, 0), true) && d.clients == s.clients
  {
    var id := s.clients[c][0];
    ReqDoneKeepsPicked(s, c, id, 0);
    Entry(s, c, id, Closed);
    PickCanFail(ReqDone(s, c, id, Closed).0, c, 0);
  }

  /** The turn of a failed vector, when nothing of its reply gets through twice: the first reply names the
      error of the first failed fragment, and the second one is that of an unknown error. */
  lemma ErrorLostOnRetry(s: State, c: ConnId)
    requires Inv(s, Closed) && FailedHead(s, c) && Picked(s, c, 0)
    requires var d := ReqDone(s, c, s.clients[c][0], Closed); IsError(d.0.reqs, s.clients[c], s.clients[c][0])
    ensures var id, d := s.clients[c][0], ReqDone(s, c, s.clients[c][0], Closed).0;
      var s1 := ClientSend(s, c, 1, 0, {}, 0);
      && CanFail(d, c, 0) && id in s1.reqs && s1.reqs[id].peer == Some(Failure(ErrOf(d, c, 0)))
      && Inv(s1, Closed) && c in s1.clients
      && var s2 := ClientSend(s1, c, 1, 0, {}, 0);
      && id in s2.reqs && s2.reqs[id].peer == Some(Failure(0))
  {
    var id, d := s.clients[c][0], ReqDone(s, c, s.clients[c][0], Closed).0;
    WritesNone(s, c);
    FailedPick(s, c);
    ErrorMade(d, c, 0);
    var s1 := MakeError(d, c, 0);
    RetryFails(s1, c);
    ErrorForgotten(d, c, 0);
  }

  lemma RetryFails(s: State, c: ConnId)
    requires Inv(s, Closed) && CanFail(s, c, 0) && s.reqs[s.clients[c][0]].fragId != 0
    requires var r := s.reqs[s.clients[c][0]]; r.done && r.fdone && (r.error || r.ferror)
    ensures ClientSend(s, c, 1, 0, {}, 0) == MakeError(s, c, 0)
  {
    WritesNone(s, c);
    FailedPick(s, c);
  }
}
