/**
  How much of a reply has been written. msg_send_chain may stop inside a reply; the next write goes on where it
  stopped, unless the reply is an error: rsp_send_next then makes a new one, which starts at its first byte.
*/
module PipelineBytes {
  import opened Basics
  import opened Seqs
  import opened PipelineState
  import opened PipelineInv
  import opened PipelineQueues
  import opened PipelineHandlers
  import opened PipelineClient
  import opened PipelineRuns
  import opened PipelineEffects
  import opened PipelineErrors

  /** After any run, only of the first reply in a client's queue some bytes may have been written. */
  lemma OnlyFirstPartly(timeout: int, es: seq<Event>, c: ConnId, i: nat)
    requires Possible(Start(timeout), es)
    requires var s := Run(Start(timeout), es); c in s.clients && 0 < i < |s.clients[c]|
    ensures var s := Run(Start(timeout), es); s.clients[c][i] in s.reqs && s.reqs[s.clients[c][i]].off == 0
  {
    var s := Run(Start(timeout), es);
    Unfold(s, Closed);
    assert ClientOk(s.reqs, c, s.clients[c]);
  }

  // ---------- Going on with a reply ----------

  lemma DoneKeepsOff(s: State, c: ConnId, id: MsgId, x: MsgId)
    requires Inv(s, Closed) && c in s.clients && id in s.clients[c] && x in s.reqs
    ensures var s' := ReqDone(s, c, id, Closed).0; x in s'.reqs && s'.reqs[x].off == s.reqs[x].off
  {
    Entry(s, c, id, Closed);
    if IsDone(s.reqs, s.clients[c], id) && Unlatched(s.reqs[id]) { OwnerOf(s, c, id, Closed); }
  }

  /** rsp_send_next, for a reply of which some bytes have been written, goes on behind them if and only if
      req_error says no; otherwise the reply is a new one, and starts at its first byte. */
  lemma ResumesExactlyIf(s: State, c: ConnId, k: nat)
    requires Inv(s, Closed) && Picked(s, c, k) && k < |s.clients[c]|
    requires s.reqs[s.clients[c][k]].off > 0 && ReqDone(s, c, s.clients[c][k], Closed).1
    ensures var id := s.clients[c][k];
      var d, s' := ReqDone(s, c, id, Closed).0, Pick(s, c, k).0;
      && id in s'.reqs && Pick(s, c, k).1
      && (s'.reqs[id].off == s.reqs[id].off <==> !IsError(d.reqs, s.clients[c], id))
      && s'.reqs[id].off == (if IsError(d.reqs, s.clients[c], id) then 0 else s.reqs[id].off)
  {
    var id := s.clients[c][k];
    DoneKeepsOff(s, c, id, id);
    ReqDoneKeepsPicked(s, c, id, k);
    var d := ReqDone(s, c, id, Closed).0;
    if IsError(d.reqs, s.clients[c], id) { PickCanFail(d, c, k); }
  }

  // ---------- Stopping inside a reply ----------

  lemma {:induction false} ReleasesKeep(s: State, c: ConnId, k: nat, m: nat, full: nat, zero: set<MsgId>, x: MsgId)
    requires Inv(s, Closed) && Picked(s, c, m) && k <= m && full <= m - k && (full > 0 ==> k == 0)
    requires zero <= s.hist.parts
    ensures var s' := Releases(s, c, k, m, full, zero); x in s'.reqs ==> x in s.reqs && s'.reqs[x] == s.reqs[x]
    decreases m - k
  {
    if k < m {
      if full > 0 {
        ReleasesKeep(ReleaseOne(s, c, 0, m, s.clients[c][0] in zero), c, 0, m - 1, full - 1, zero, x);
      } else if s.clients[c][k] in zero {
        ReleasesKeep(ReleaseOne(s, c, k, m, true), c, k, m - 1, 0, zero, x);
      } else {
        ReleasesKeep(s, c, k + 1, m, 0, zero, x);
      }
    }
  }

  lemma StaysFirst(q: seq<MsgId>, full: nat, m: nat, zero: set<MsgId>)
    requires full <= m <= |q| && Stays(q, full, m, zero)
    ensures Without(q[full..m], zero) != []
  {
    var i :| full <= i < m && q[i] !in zero;
    assert q[full..m][i - full] == q[i];
    assert q[i] in Without(q[full..m], zero);
  }

  /** What a write does to the reply it stops inside. */
  lemma StopsAt(s: State, c: ConnId, m: nat, n: nat, empty: set<MsgId>, part: nat)
    requires Inv(s, Closed) && Picked(s, c, m) && n <= m && empty <= s.hist.parts && Stays(s.clients[c], n, m, empty)
    ensures var q, s' := s.clients[c], Advance(Releases(s, c, 0, m, n, empty), c, part);
      && Without(q[n..m], empty) != []
      && var id := Without(q[n..m], empty)[0];
      && c in s'.clients && s'.clients[c] != [] && s'.clients[c][0] == id && id in s'.reqs && id in s.reqs
      && s'.reqs[id] == s.reqs[id].(off := s.reqs[id].off + part)
  {
    var s1 := Releases(s, c, 0, m, n, empty);
    StaysFirst(s.clients[c], n, m, empty);
    FirstLeft(s, c, m, n, empty);
    HeadAlive(s1, c);
    ReleasesKeep(s, c, 0, m, n, empty, s1.clients[c][0]);
    AdvanceIs(s1, c, part);
  }

  lemma FirstLeft(s: State, c: ConnId, m: nat, n: nat, empty: set<MsgId>)
    requires Inv(s, Closed) && Picked(s, c, m) && n <= m && empty <= s.hist.parts
    requires Without(s.clients[c][n..m], empty) != []
    ensures var s1 := Releases(s, c, 0, m, n, empty);
      s1.clients[c] != [] && s1.clients[c][0] == Without(s.clients[c][n..m], empty)[0]
  {
    ReleasesWritten(s, c, m, n, empty);
    assert s.clients[c][..0] == [];
  }

  lemma AdvanceIs(s: State, c: ConnId, part: nat)
    requires Inv(s, Closed) && c in s.clients && s.clients[c] != [] && s.clients[c][0] in s.reqs
    ensures var id, s' := s.clients[c][0], Advance(s, c, part);
      s'.clients == s.clients && id in s'.reqs && s'.reqs[id] == s.reqs[id].(off := s.reqs[id].off + part)
  {
  }

  /** A write that stops inside a reply, the first with bytes that it does not complete: this reply comes first
      in the queue, and what was written of it is added to what had been written. */
  lemma StopsInside(s: State, c: ConnId, limit: nat, full: nat, zero: set<MsgId>, part: nat)
    requires Inv(s, Closed) && c in s.clients && Live(s.reqs, s.clients[c])
    requires
      var p := Picks(s, c, 0, limit);
      Stays(p.0.clients[c], if full <= p.1 then full else p.1, p.1, zero * p.0.hist.parts)
    ensures var p, s' := Picks(s, c, 0, limit), ClientSend(s, c, limit, full, zero, part);
      var n, empty := if full <= p.1 then full else p.1, zero * p.0.hist.parts;
      && Without(p.0.clients[c][n..p.1], empty) != []
      && var id := Without(p.0.clients[c][n..p.1], empty)[0];
      && c in s'.clients && s'.clients[c] != [] && s'.clients[c][0] == id && id in s'.reqs && id in p.0.reqs
      && s'.reqs[id] == p.0.reqs[id].(off := p.0.reqs[id].off + part)
  {
    var p := Picks(s, c, 0, limit);
    StopsAt(p.0, c, p.1, if full <= p.1 then full else p.1, zero * p.0.hist.parts, part);
  }

  // ---------- A half-written error starts over ----------

  /** The first request of the queue is done and failed, for itself or with its vector. */
  ghost predicate Failing(s: State, c: ConnId) {
    && c in s.clients && s.clients[c] != [] && Live(s.reqs, s.clients[c])
    && var r := s.reqs[s.clients[c][0]];
    && r.done && !Unlatched(r) && (r.error || (r.fragId != 0 && r.ferror))
  }

  lemma FailingPick(s: State, c: ConnId)
    requires Inv(s, Closed) && Failing(s, c)
    ensures CanFail(s, c, 0) && Pick(s, c, 0) == (MakeError(s, c, 0), true)
  {
    var id := s.clients[c][0];
    Entry(s, c, id, Closed);
    ReqDoneKeepsPicked(s, c, id, 0);
    PickCanFail(s, c, 0);
  }

  /** The new reply has been written nothing of, and the request is found failed again. */
  lemma ErrorStarts(s: State, c: ConnId)
    requires Inv(s, Closed) && CanFail(s, c, 0) && IsError(s.reqs, s.clients[c], s.clients[c][0])
    ensures var s', id := MakeError(s, c, 0), s.clients[c][0];
      && Failing(s', c) && s'.clients[c][0] == id && s'.reqs[id].off == 0
      && s'.reqs[id].peer == Some(Failure(ErrOf(s, c, 0)))
  {
    var id := s.clients[c][0];
    if s.reqs[id].fragId != 0 {
      ErrorMade(s, c, 0);
    } else {
      FailureStands(s, c, 0, ErrOf(s, c, 0));
    }
    QueueLive(MakeError(s, c, 0), c, Closed);
  }

  lemma WritesPart(s: State, c: ConnId, part: nat)
    requires Inv(s, Closed) && c in s.clients && s.clients[c] != [] && Picked(s, c, 0) && Pick(s, c, 0).1
    ensures ClientSend(s, c, 1, 0, {}, part) == Advance(Pick(s, c, 0).0, c, part)
  {
    var p := Pick(s, c, 0);
    PicksMore(s, c, 0, 1);
    PicksStop(p.0, c, 1, 0);
    assert {} * p.0.hist.parts == {};
    assert Stays(p.0.clients[c], 0, 1, {}) by { assert p.0.clients[c][0] !in {}; }
    NoneReleased(p.0, c);
  }

  lemma NoneReleased(s: State, c: ConnId)
    requires Inv(s, Closed) && Picked(s, c, 1)
    ensures Releases(s, c, 0, 1, 0, {}) == s
  {
  }

  /** The turn of a failed request, from every such state: a write that stops inside its error reply, and then
      any other that gets no further. The second one is to write the reply from its first byte again. */
  lemma HalfWrittenError(s: State, c: ConnId, part: nat)
    requires Inv(s, Closed) && Failing(s, c)
    ensures var id, s1 := s.clients[c][0], ClientSend(s, c, 1, 0, {}, part);
      && id in s1.reqs && s1.reqs[id].off == part && s1.reqs[id].peer == Some(Failure(ErrOf(s, c, 0)))
      && Inv(s1, Closed) && c in s1.clients
      && var s2 := ClientSend(s1, c, 1, 0, {}, 0);
      && id in s2.reqs && s2.reqs[id].off == 0
  {
    FailingWrite(s, c, part);
    FailingWrite(ClientSend(s, c, 1, 0, {}, part), c, 0);
  }

  lemma FailingWrite(s: State, c: ConnId, part: nat)
    requires Inv(s, Closed) && Failing(s, c)
    ensures var id, s' := s.clients[c][0], ClientSend(s, c, 1, 0, {}, part);
      && Failing(s', c) && s'.clients[c][0] == id && s'.reqs[id].off == part
      && s'.reqs[id].peer == Some(Failure(ErrOf(s, c, 0)))
  {
    FailingPick(s, c);
    ErrorStarts(s, c);
    WritesPart(s, c, part);
    AdvanceFailing(MakeError(s, c, 0), c, part);
  }

  lemma AdvanceFailing(s: State, c: ConnId, part: nat)
    requires Inv(s, Closed) && Failing(s, c)
    ensures var s', id := Advance(s, c, part), s.clients[c][0];
      Failing(s', c) && s'.clients == s.clients && s'.reqs[id] == s.reqs[id].(off := s.reqs[id].off + part)
  {
  }
}
