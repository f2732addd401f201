/** core_timeout closes a connection only when a request it holds is due. */
module PipelineDue {
  import opened Basics
  import opened Seqs
  import opened PipelineState
  import opened PipelineInv
  import opened PipelineQueues
  import opened PipelineMoves
  import opened PipelineFlags
  import opened PipelineConns
  import opened PipelineHandlers
  import opened PipelineServer
  import opened PipelineRuns
  import opened PipelineEffects
  import opened PipelineOrder

  ghost predicate Fewer(ts: seq<Timer>, ts': seq<Timer>) {
    forall t :: t in ts' ==> t in ts
  }

  lemma {:induction false} CancelFewer(ts: seq<Timer>, id: MsgId)
    ensures Fewer(ts, Cancel(ts, id))
  {
    if ts != [] {
      CancelFewer(ts[1..], id);
      assert ts == [ts[0]] + ts[1..];
    }
  }

  lemma FailOneFewer(s: State, sid: ConnId, v: ServerConn, id: MsgId, err: int, out: bool)
    requires Inv(s, Closed) && sid in s.servers && sid !in s.hist.wire && Takes(s.servers[sid], id, v)
    requires id in s.reqs && s.reqs[id].at == Some(sid)
    ensures Fewer(s.timers, FailOne(s, sid, v, id, err, out).timers)
  {
    FailSettles(s, sid, v, id, err);
    CancelFewer(s.timers, id);
  }

  lemma {:induction false} FailAllFewer(s: State, sid: ConnId, err: int)
    requires Inv(s, Closed) && sid in s.servers && sid !in s.hist.wire
    ensures Fewer(s.timers, FailAll(s, sid, err).timers)
    decreases |s.servers[sid].inq| + |s.servers[sid].outq|
  {
    var v := s.servers[sid];
    if v.inq != [] {
      ServerEntry(s, sid, v.inq[0], Closed);
      TakeIn(v);
      FailOneFewer(s, sid, v.(inq := v.inq[1..]), v.inq[0], err, false);
      FailAllFewer(FailIn(s, sid, err), sid, err);
    } else if v.outq != [] {
      ServerEntry(s, sid, v.outq[0], Closed);
      TakeOut(v);
      FailOneFewer(s, sid, v.(outq := v.outq[1..]), v.outq[0], err, true);
      FailAllFewer(FailOut(s, sid, err), sid, err);
    }
  }

  lemma ExpireFewer(s: State)
    requires Inv(s, Closed) && s.timers != []
    requires s.timers[0].id in s.reqs && !s.reqs[s.timers[0].id].done
    ensures Fewer(s.timers, Expire(s).timers)
  {
    FirstTimer(s);
    var t := s.timers[0];
    InvUnwire(s, t.conn);
    CancelFewer(s.timers, t.id);
    FailAllFewer(CancelDone(Unwire(s, t.conn), t.id), t.conn, ETIMEDOUT);
  }

  /** Timer t of a request that connection sid holds ran out at or before one of the first n readings. */
  ghost predicate Due(s: State, sid: ConnId, t: Timer, nows: seq<int>, n: nat) {
    && t in s.timers && t.conn == sid && t.id in Line(s, sid)
    && exists j :: 0 <= j < n && j < |nows| && t.deadline <= nows[j]
  }

  lemma FirstDue(s: State, nows: seq<int>, n: nat)
    requires Inv(s, Closed) && s.timers != [] && nows != [] && 0 < n
    requires s.timers[0].id in s.reqs && !s.reqs[s.timers[0].id].done && s.timers[0].deadline <= nows[0]
    ensures Due(s, s.timers[0].conn, s.timers[0], nows, n)
  {
    var t := s.timers[0];
    assert t in s.timers;
    ExpiredFails(s, t.id);
    assert t.deadline <= nows[0];
  }

  lemma DueBefore(s: State, s1: State, sid: ConnId, t: Timer, nows: seq<int>, n: nat)
    requires Fewer(s.timers, s1.timers) && Line(s1, sid) == Line(s, sid)
    requires nows != [] && Due(s1, sid, t, nows[1..], n)
    ensures Due(s, sid, t, nows, n + 1)
  {
    var j :| 0 <= j < n && j < |nows[1..]| && t.deadline <= nows[1..][j];
    assert t.deadline <= nows[j + 1];
  }

  lemma {:induction false} ClosedWhenDue(s: State, nows: seq<int>, sid: ConnId) returns (t: Timer)
    requires Inv(s, Closed) && |s.timers| < |nows| && sid in s.servers && sid !in Timeouts(s, nows).0.servers
    ensures Due(s, sid, t, nows, Timeouts(s, nows).1)
    decreases |s.timers|
  {
    FirstTimer(s);
    if s.reqs[s.timers[0].id].done {
      t := ClosedWhenDue(DropTimer(s), nows, sid);
      assert s.timers == [s.timers[0]] + s.timers[1..];
    } else {
      ExpireSame(s);
      if sid == s.timers[0].conn {
        t := s.timers[0];
        FirstDue(s, nows, Timeouts(s, nows).1);
      } else {
        t := ClosedWhenDue(Expire(s), nows[1..], sid);
        ExpireFewer(s);
        DueBefore(s, Expire(s), sid, t, nows, Timeouts(Expire(s), nows[1..]).1);
      }
    }
  }

  /** After any run, core_timeout closes a connection only if a request in its queues was due: its timeout
      is no later than one of the readings of the clock that were taken. */
  lemma OnlyOverdueClosed(timeout: int, es: seq<Event>, nows: seq<int>, sid: ConnId) returns (t: Timer)
    requires Possible(Start(timeout), es) && Enabled(Run(Start(timeout), es), Timeout(nows))
    requires var s := Run(Start(timeout), es); sid in s.servers && sid !in Timeouts(s, nows).0.servers
    ensures var s := Run(Start(timeout), es); Due(s, sid, t, nows, Timeouts(s, nows).1)
  {
    t := ClosedWhenDue(Run(Start(timeout), es), nows, sid);
  }
}
