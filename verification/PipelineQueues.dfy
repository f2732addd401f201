/** Each elementary move keeps the vector structure of a client queue. */
module PipelineQueues {
  import opened Basics
  import opened Seqs
  import opened PipelineState
  import opened PipelineInv

  /** Queue q looks the same in two histories, except that more answers may be known. */
  ghost predicate SameHistory(h: History, h': History, q: seq<MsgId>) {
    && (forall i :: 0 <= i < |q| ==>
          && (q[i] in h'.parts <==> q[i] in h.parts)
          && (q[i] in h'.coalesced <==> q[i] in h.coalesced)
          && (q[i] in h'.vectors <==> q[i] in h.vectors)
          && (q[i] in h.vectors ==> h'.vectors[q[i]] == h.vectors[q[i]]))
    && (forall x :: x in h.answers ==> x in h'.answers && h'.answers[x] == h.answers[x])
  }

  /** The flags a move may change without touching the vector structure. */
  ghost predicate FlagStep(r: Req, r': Req, open: Open) {
    && r'.fragId == r.fragId && r'.fragOwner == r.fragOwner && r'.fdone == r.fdone && r'.nfrag == r.nfrag
    && (r.done ==> r'.done) && (r.error ==> r'.error) && (r'.error && !r.error ==> !r.done)
    && (r'.nfragDone == r.nfragDone || open.Closed?)
    && ( || r'.peer == r.peer
         || (r'.peer.Some? && r'.peer.value.Failure?)
         || (!(r'.peer.Some? && r'.peer.value.Coalesced?) && !r.ferror))
  }

  ghost predicate FlagSteps(reqs: map<MsgId, Req>, reqs': map<MsgId, Req>, q: seq<MsgId>, open: Open) {
    && (forall i :: 0 <= i < |q| ==> q[i] in reqs && q[i] in reqs' && FlagStep(reqs[q[i]], reqs'[q[i]], open))
    && (forall i :: 0 <= i < |q| ==> MayMark(reqs, reqs', q, q[i]))
  }

  /** ferror is set only on a request that is answered with a failure and is alone in the queue. */
  ghost predicate MayMark(reqs: map<MsgId, Req>, reqs': map<MsgId, Req>, q: seq<MsgId>, id: MsgId) {
    id in reqs && id in reqs' && reqs'[id].ferror && !reqs[id].ferror ==>
      reqs[id].fdone && reqs'[id].peer.Some? && reqs'[id].peer.value.Failure? && Alone(reqs, q, id)
  }

  ghost predicate SameOpen(q: seq<MsgId>, open: Open, open': Open) {
    forall i :: 0 <= i < |q| ==>
      && Rest(open, q[i]) == Rest(open', q[i])
      && ((open'.Opened? && open'.owner == q[i]) ==> (open.Opened? && open.owner == q[i]))
  }

  lemma QueueFlags(reqs: map<MsgId, Req>, h: History, q: seq<MsgId>, open: Open,
                   reqs': map<MsgId, Req>, h': History, open': Open)
    requires QueueOk(reqs, h, q, open)
    requires FlagSteps(reqs, reqs', q, open) && SameHistory(h, h', q) && SameOpen(q, open, open')
    ensures QueueOk(reqs', h', q, open')
  {
    forall i | 0 <= i < |q| ensures MemberOk(reqs', h', q, q[i], open') {
      var id := q[i];
      assert MemberOk(reqs, h, q, id, open);
      MemberFlags(reqs, h, q, open, reqs', h', open', i);
    }
  }

  lemma MemberFlags(reqs: map<MsgId, Req>, h: History, q: seq<MsgId>, open: Open,
                    reqs': map<MsgId, Req>, h': History, open': Open, i: nat)
    requires QueueOk(reqs, h, q, open) && i < |q|
    requires FlagSteps(reqs, reqs', q, open) && SameHistory(h, h', q) && SameOpen(q, open, open')
    ensures q[i] in reqs' && MemberOk(reqs', h', q, q[i], open')
  {
    var id := q[i];
    assert MemberOk(reqs, h, q, id, open);
    if Unlatched(reqs[id]) && id !in h.parts {
      forall x | x in h'.vectors[id] ensures PartOf(reqs', h', q, id, reqs'[id].fragId, x) {
        assert PartOf(reqs, h, q, id, reqs[id].fragId, x);
      }
    }
    if reqs'[id].peer.Some? && reqs'[id].peer.value.Coalesced? {
      var ps := reqs'[id].peer.value.parts;
      forall j | 0 <= j < |ps| ensures PartFits(reqs', h', q, reqs'[id].fragId, h'.vectors[id][j], ps[j]) {
        assert PartFits(reqs, h, q, reqs[id].fragId, h.vectors[id][j], ps[j]);
      }
    }
  }

  // ---------- Appending ----------

  /** What holds of the members already in the queue keeps holding when one more is appended. */
  lemma MemberBefore(reqs: map<MsgId, Req>, h: History, q: seq<MsgId>, open: Open,
                     id: MsgId, r: Req, h': History, open': Open, i: nat)
    requires QueueOk(reqs, h, q, open) && i < |q| && id !in reqs
    requires SameHistory(h, h', q) && SameOpen(q, open, open')
    requires reqs[q[i]].fdone ==> reqs[q[i]].fragId != r.fragId
    ensures q[i] in reqs[id := r] && MemberOk(reqs[id := r], h', q + [id], q[i], open')
  {
    var x := q[i];
    var reqs' := reqs[id := r];
    assert MemberOk(reqs, h, q, x, open);
    if Unlatched(reqs[x]) && x !in h.parts {
      forall y | y in h'.vectors[x] ensures PartOf(reqs', h', q + [id], x, reqs'[x].fragId, y) {
        assert PartOf(reqs, h, q, x, reqs[x].fragId, y);
      }
    }
    if reqs'[x].peer.Some? && reqs'[x].peer.value.Coalesced? {
      var ps := reqs'[x].peer.value.parts;
      forall j | 0 <= j < |ps| ensures PartFits(reqs', h', q + [id], reqs'[x].fragId, h'.vectors[x][j], ps[j]) {
        assert PartFits(reqs, h, q, reqs[x].fragId, h.vectors[x][j], ps[j]);
      }
    }
  }

  ghost predicate IsSingle(r: Req) {
    && r.fragId == 0 && r.fragOwner.None? && !r.fdone && !r.ferror
    && !(r.peer.Some? && r.peer.value.Coalesced?)
  }

  lemma QueueAppendSingle(reqs: map<MsgId, Req>, h: History, q: seq<MsgId>, id: MsgId, r: Req, h': History)
    requires QueueOk(reqs, h, q, Closed) && id !in reqs
    requires IsSingle(r) && id !in h'.parts && id !in h'.coalesced
    requires SameHistory(h, h', q)
    ensures QueueOk(reqs[id := r], h', q + [id], Closed)
  {
    var reqs', q' := reqs[id := r], q + [id];
    assert Live(reqs', q');
    forall i | 0 <= i < |q'| ensures MemberOk(reqs', h', q', q'[i], Closed) {
      if i < |q| {
        assert MemberOk(reqs, h, q, q[i], Closed);
        MemberBefore(reqs, h, q, Closed, id, r, h', Closed, i);
      }
    }
    forall i, j | 0 <= i < |q'| && 0 <= j < |q'| && reqs'[q'[i]].fragId == reqs'[q'[j]].fragId
      ensures reqs'[q'[i]].fdone == reqs'[q'[j]].fdone
    {
      assert i < |q| ==> MemberOk(reqs, h, q, q[i], Closed);
      assert j < |q| ==> MemberOk(reqs, h, q, q[j], Closed);
    }
  }

  ghost predicate IsOwner(r: Req, id: MsgId) {
    && r.fragId != 0 && r.fragOwner == Some(id) && !r.fdone && !r.ferror && r.done && !r.error
    && r.nfrag > 0 && r.nfragDone == 0
    && !(r.peer.Some? && r.peer.value.Coalesced?)
  }

  lemma QueueAppendOwner(reqs: map<MsgId, Req>, h: History, q: seq<MsgId>, id: MsgId, r: Req, h': History)
    requires QueueOk(reqs, h, q, Closed) && id !in reqs
    requires IsOwner(r, id) && id !in h'.parts && id !in h'.coalesced
    requires id in h'.vectors && h'.vectors[id] == []
    requires forall i :: 0 <= i < |q| ==> q[i] in reqs && reqs[q[i]].fragId < r.fragId
    requires SameHistory(h, h', q)
    ensures QueueOk(reqs[id := r], h', q + [id], Opened(id, r.nfrag))
  {
    var reqs', q', open' := reqs[id := r], q + [id], Opened(id, r.nfrag);
    assert Live(reqs', q');
    forall i | 0 <= i < |q'| ensures MemberOk(reqs', h', q', q'[i], open') {
      if i < |q| { MemberBefore(reqs, h, q, Closed, id, r, h', open', i); }
    }
  }

  ghost predicate IsFragment(r: Req, o: MsgId, f: nat) {
    && r.fragId == f && r.fragOwner == Some(o) && !r.fdone && !r.ferror
    && !(r.peer.Some? && r.peer.value.Coalesced?)
  }

  lemma QueueAppendPart(reqs: map<MsgId, Req>, h: History, q: seq<MsgId>, open: Open, id: MsgId, r: Req, h': History)
    requires QueueOk(reqs, h, q, open) && id !in reqs
    requires open.Opened? && open.owner in q && open.owner in reqs && open.owner !in h.parts && open.rest > 0
    requires IsFragment(r, open.owner, reqs[open.owner].fragId)
    requires open.owner in h.vectors && id !in h.vectors[open.owner]
    requires h' == h.(arrived := h'.arrived, local := h'.local, parts := h.parts + {id}, stuck := h'.stuck,
                      vectors := h.vectors[open.owner := h.vectors[open.owner] + [id]])
    requires id !in h.coalesced
    ensures QueueOk(reqs[id := r], h', q + [id], Opened(open.owner, open.rest - 1))
  {
    var o := open.owner;
    var reqs', q', open' := reqs[id := r], q + [id], Opened(o, open.rest - 1);
    assert Live(reqs', q');
    var p :| 0 <= p < |q| && q[p] == o;
    assert MemberOk(reqs, h, q, q[p], open);
    forall i | 0 <= i < |q'| ensures MemberOk(reqs', h', q', q'[i], open') {
      if i < |q| && q[i] != o {
        assert reqs[q[i]].fragId == reqs[q[p]].fragId ==> reqs[q[i]].fdone == reqs[q[p]].fdone;
        MemberBeforePart(reqs, h, q, open, id, r, h', i);
      } else if i < |q| {
        forall y | y in h'.vectors[o] ensures PartOf(reqs', h', q', o, reqs'[o].fragId, y) {
          if y != id { assert PartOf(reqs, h, q, o, reqs[o].fragId, y); }
        }
      }
    }
    ContiguousAppend(reqs, q, id, r, o);
    forall i, j | 0 <= i < |q'| && 0 <= j < |q'| && reqs'[q'[i]].fragId == reqs'[q'[j]].fragId
      ensures reqs'[q'[i]].fdone == reqs'[q'[j]].fdone
    {
      assert i < |q| ==> reqs[q[i]].fragId == reqs[q[p]].fragId || j < |q|;
      assert j < |q| ==> reqs[q[j]].fragId == reqs[q[p]].fragId || i < |q|;
    }
  }

  lemma ContiguousAppend(reqs: map<MsgId, Req>, q: seq<MsgId>, id: MsgId, r: Req, o: MsgId)
    requires Live(reqs, q) && Contiguous(reqs, q) && id !in reqs && q != []
    requires r.fragId != 0 && reqs[q[|q| - 1]].fragId == r.fragId
    ensures Live(reqs[id := r], q + [id]) && Contiguous(reqs[id := r], q + [id])
  {
    var reqs', q' := reqs[id := r], q + [id];
    forall i, k, j | 0 <= i < k < j < |q'| && reqs'[q'[i]].fragId == reqs'[q'[j]].fragId != 0
      ensures reqs'[q'[k]].fragId == reqs'[q'[i]].fragId
    {
      if j == |q| && k < |q| - 1 {
        assert reqs[q[i]].fragId == reqs[q[|q| - 1]].fragId;
      }
    }
  }

  lemma MemberBeforePart(reqs: map<MsgId, Req>, h: History, q: seq<MsgId>, open: Open,
                         id: MsgId, r: Req, h': History, i: nat)
    requires QueueOk(reqs, h, q, open) && id !in reqs && i < |q|
    requires open.Opened? && open.owner in h.vectors && open.rest > 0 && q[i] != open.owner
    requires reqs[q[i]].fdone ==> reqs[q[i]].fragId != r.fragId
    requires h' == h.(arrived := h'.arrived, local := h'.local, parts := h.parts + {id}, stuck := h'.stuck,
                      vectors := h.vectors[open.owner := h.vectors[open.owner] + [id]])
    ensures q[i] in reqs[id := r]
    ensures MemberOk(reqs[id := r], h', q + [id], q[i], Opened(open.owner, open.rest - 1))
  {
    var x := q[i];
    var reqs', open' := reqs[id := r], Opened(open.owner, open.rest - 1);
    assert MemberOk(reqs, h, q, x, open);
    if Unlatched(reqs[x]) && x !in h.parts {
      forall y | y in h'.vectors[x] ensures PartOf(reqs', h', q + [id], x, reqs'[x].fragId, y) {
        assert PartOf(reqs, h, q, x, reqs[x].fragId, y);
      }
    }
    if reqs'[x].peer.Some? && reqs'[x].peer.value.Coalesced? {
      var ps := reqs'[x].peer.value.parts;
      forall j | 0 <= j < |ps| ensures PartFits(reqs', h', q + [id], reqs'[x].fragId, h'.vectors[x][j], ps[j]) {
        assert PartFits(reqs, h, q, reqs[x].fragId, h.vectors[x][j], ps[j]);
      }
    }
  }

  /** The last fragment has been forwarded. */
  lemma QueueClose(reqs: map<MsgId, Req>, h: History, q: seq<MsgId>, o: MsgId)
    requires QueueOk(reqs, h, q, Opened(o, 0))
    ensures QueueOk(reqs, h, q, Closed)
  {
    QueueFlags(reqs, h, q, Opened(o, 0), reqs, h, Closed);
  }

  // ---------- Latching a vector ----------

  /** All members of vector f in the queue are done. */
  predicate AllDone(reqs: map<MsgId, Req>, q: seq<MsgId>, f: nat)
    requires Live(reqs, q)
  {
    forall i :: 0 <= i < |q| && reqs[q[i]].fragId == f ==> reqs[q[i]].done
  }

  /** The members of an unlatched vector are its owner and its fragments. */
  lemma MembersAre(reqs: map<MsgId, Req>, h: History, q: seq<MsgId>, o: MsgId, y: MsgId, open: Open)
    requires QueueOk(reqs, h, q, open)
    requires o in q && o in reqs && Unlatched(reqs[o]) && o !in h.parts
    requires y in q && y in reqs && reqs[y].fragId == reqs[o].fragId && y != o
    ensures o in h.vectors && y in h.vectors[o]
  {
    var p :| 0 <= p < |q| && q[p] == o;
    var i :| 0 <= i < |q| && q[i] == y;
    assert MemberOk(reqs, h, q, q[p], open) && MemberOk(reqs, h, q, q[i], open);
    assert reqs[q[i]].fdone == reqs[q[p]].fdone;
    OwnerBefore(reqs, h.parts, q, p, i);
    var o' := reqs[y].fragOwner.value;
    var p' :| 0 <= p' < |q| && q[p'] == o';
    OwnerBefore(reqs, h.parts, q, p, p');
    OwnerBefore(reqs, h.parts, q, p', p);
  }

  lemma OwnerBefore(reqs: map<MsgId, Req>, parts: set<MsgId>, q: seq<MsgId>, p: nat, i: nat)
    requires Live(reqs, q) && OwnerFirst(reqs, parts, q) && p < |q| && i < |q|
    requires reqs[q[p]].fragId == reqs[q[i]].fragId != 0 && q[p] !in parts
    ensures p <= i && (p != i ==> q[i] in parts)
  {
  }

  /** Every fragment of an unlatched vector whose members are done has its answer, or has failed. */
  ghost predicate Answered(reqs: map<MsgId, Req>, h: History, x: MsgId) {
    x in reqs && PairedAt(h, x, reqs[x])
  }

  lemma QueueLatch(reqs: map<MsgId, Req>, h: History, q: seq<MsgId>, o: MsgId, reqs': map<MsgId, Req>, h': History,
                   open: Open)
    requires QueueOk(reqs, h, q, open) && NoDup(q)
    requires o in q && o in reqs && Unlatched(reqs[o]) && o !in h.parts && o in h.vectors
    requires AllDone(reqs, q, reqs[o].fragId) && !(open.Opened? && open.owner == o)
    requires forall i :: 0 <= i < |q| ==> Answered(reqs, h, q[i])
    requires h' == h.(coalesced := h.coalesced + [o])
    requires var r1 := SetFdone(reqs, Members(reqs, q, reqs[o].fragId));
             reqs' == r1[o := r1[o].(peer := Some(Coalesced(Gather(r1, h.vectors[o]))))]
    requires open.Opened? ==> open.owner !in h.parts
    ensures QueueOk(reqs', h', q, open)
  {
    forall i | 0 <= i < |q| ensures MemberOk(reqs', h', q, q[i], open) {
      MemberLatch(reqs, h, q, o, reqs', h', open, i);
    }
    ShapeLatch(reqs, h, q, reqs[o].fragId, reqs');
    if open.Opened? && open.owner in q {
      var i, j :| 0 <= i < |q| && 0 <= j < |q| && q[i] == o && q[j] == open.owner;
      OwnersDiffer(reqs, h.parts, q, i, j);
    }
  }

  lemma OwnersDiffer(reqs: map<MsgId, Req>, parts: set<MsgId>, q: seq<MsgId>, i: nat, j: nat)
    requires Live(reqs, q) && OwnerFirst(reqs, parts, q) && i < |q| && j < |q| && i != j
    requires q[i] !in parts && q[j] !in parts && reqs[q[i]].fragId != 0
    ensures reqs[q[i]].fragId != reqs[q[j]].fragId
  {
  }

  lemma ShapeLatch(reqs: map<MsgId, Req>, h: History, q: seq<MsgId>, f: nat, reqs': map<MsgId, Req>)
    requires Live(reqs, q) && Contiguous(reqs, q) && OwnerFirst(reqs, h.parts, q) && AllOrNone(reqs, q)
    requires forall i :: 0 <= i < |q| ==>
      q[i] in reqs' && reqs'[q[i]].fragId == reqs[q[i]].fragId
        && reqs'[q[i]].fdone == (reqs[q[i]].fdone || reqs[q[i]].fragId == f)
    ensures Live(reqs', q) && Contiguous(reqs', q) && OwnerFirst(reqs', h.parts, q) && AllOrNone(reqs', q)
  {
  }

  lemma MemberLatch(reqs: map<MsgId, Req>, h: History, q: seq<MsgId>, o: MsgId, reqs': map<MsgId, Req>, h': History,
                    open: Open, i: nat)
    requires QueueOk(reqs, h, q, open) && NoDup(q) && i < |q|
    requires o in q && o in reqs && Unlatched(reqs[o]) && o !in h.parts && o in h.vectors
    requires AllDone(reqs, q, reqs[o].fragId) && !(open.Opened? && open.owner == o)
    requires forall j :: 0 <= j < |q| ==> Answered(reqs, h, q[j])
    requires h' == h.(coalesced := h.coalesced + [o])
    requires var r1 := SetFdone(reqs, Members(reqs, q, reqs[o].fragId));
             reqs' == r1[o := r1[o].(peer := Some(Coalesced(Gather(r1, h.vectors[o]))))]
    ensures q[i] in reqs' && MemberOk(reqs', h', q, q[i], open)
  {
    var x := q[i];
    var f := reqs[o].fragId;
    assert MemberOk(reqs, h, q, x, open);
    var p :| 0 <= p < |q| && q[p] == o;
    assert MemberOk(reqs, h, q, q[p], open);
    if x == o {
      var ps := reqs'[o].peer.value.parts;
      forall j | 0 <= j < |ps| ensures PartFits(reqs', h', q, f, h.vectors[o][j], ps[j]) {
        var y := h.vectors[o][j];
        assert PartOf(reqs, h, q, o, f, y);
        PartAnswered(reqs, h, q, o, y, open);
      }
    } else if reqs[x].fragId == f {
      MembersAre(reqs, h, q, o, x, open);
      assert PartOf(reqs, h, q, o, f, x);
    } else {
      if Unlatched(reqs[x]) && x !in h.parts {
        forall y | y in h.vectors[x] ensures PartOf(reqs', h', q, x, reqs[x].fragId, y) {
          assert PartOf(reqs, h, q, x, reqs[x].fragId, y);
        }
      }
      if reqs[x].peer.Some? && reqs[x].peer.value.Coalesced? {
        var ps := reqs[x].peer.value.parts;
        forall j | 0 <= j < |ps| ensures PartFits(reqs', h', q, reqs[x].fragId, h.vectors[x][j], ps[j]) {
          assert PartFits(reqs, h, q, reqs[x].fragId, h.vectors[x][j], ps[j]);
        }
      }
    }
  }

  lemma PartAnswered(reqs: map<MsgId, Req>, h: History, q: seq<MsgId>, o: MsgId, y: MsgId, open: Open)
    requires QueueOk(reqs, h, q, open)
    requires o in q && o in reqs && Unlatched(reqs[o])
    requires PartOf(reqs, h, q, o, reqs[o].fragId, y)
    requires AllDone(reqs, q, reqs[o].fragId)
    requires forall j :: 0 <= j < |q| ==> Answered(reqs, h, q[j])
    ensures reqs[y].error || (y in h.answers && PayloadOf(reqs, y) == Some(h.answers[y]))
  {
    var i :| 0 <= i < |q| && q[i] == y;
    var p :| 0 <= p < |q| && q[p] == o;
    assert reqs[q[i]].fdone == reqs[q[p]].fdone;
    assert Answered(reqs, h, q[i]);
  }

  // ---------- Unlinking ----------

  /** A request may leave the queue: it is not part of a vector still waiting, no coalesced reply
      left behind leans on it, and no failed fragment left behind looks for it. */
  ghost predicate Removable(reqs: map<MsgId, Req>, h: History, q: seq<MsgId>, k: nat)
    requires Live(reqs, q) && k < |q|
  {
    var r := reqs[q[k]];
    && !Unlatched(r)
    && (r.error ==> forall j :: 0 <= j < |q| && j != k && reqs[q[j]].fragId == r.fragId ==>
          !(reqs[q[j]].peer.Some? && reqs[q[j]].peer.value.Coalesced?))
    && (forall j :: 0 <= j < |q| && j != k && q[j] in h.parts && reqs[q[j]].error && reqs[q[j]].fdone ==>
          reqs[q[j]].fragOwner != Some(q[k]))
  }

  lemma QueueRemove(reqs: map<MsgId, Req>, h: History, q: seq<MsgId>, k: nat, h': History)
    requires QueueOk(reqs, h, q, Closed) && NoDup(q) && k < |q|
    requires Removable(reqs, h, q, k)
    requires SameHistory(h, h', q)
    ensures QueueOk(reqs - {q[k]}, h', RemoveAt(q, k), Closed)
  {
    var reqs', q' := reqs - {q[k]}, RemoveAt(q, k);
    RemoveAtMembers(q, k);
    forall i | 0 <= i < |q'| ensures q'[i] in reqs' { assert q'[i] == q[if i < k then i else i + 1]; }
    forall i | 0 <= i < |q'| ensures MemberOk(reqs', h', q', q'[i], Closed) {
      MemberRemove(reqs, h, q, k, h', if i < k then i else i + 1);
    }
    ShapeRemove(reqs, h.parts, q, k);
    assert forall i :: 0 <= i < |q'| ==> (q'[i] in h.parts ==> q'[i] in h'.parts);
  }

  lemma ShapeRemove(reqs: map<MsgId, Req>, parts: set<MsgId>, q: seq<MsgId>, k: nat)
    requires Live(reqs, q) && NoDup(q) && k < |q| && Live(reqs - {q[k]}, RemoveAt(q, k))
    requires Contiguous(reqs, q) && OwnerFirst(reqs, parts, q) && AllOrNone(reqs, q)
    ensures Contiguous(reqs - {q[k]}, RemoveAt(q, k))
    ensures OwnerFirst(reqs - {q[k]}, parts, RemoveAt(q, k))
    ensures AllOrNone(reqs - {q[k]}, RemoveAt(q, k))
  {
    var reqs', q' := reqs - {q[k]}, RemoveAt(q, k);
    forall i, l, j | 0 <= i < l < j < |q'| && reqs'[q'[i]].fragId == reqs'[q'[j]].fragId != 0
      ensures reqs'[q'[l]].fragId == reqs'[q'[i]].fragId
    {
      var i', l', j' := if i < k then i else i + 1, if l < k then l else l + 1, if j < k then j else j + 1;
      assert reqs[q[i']].fragId == reqs[q[j']].fragId && reqs[q[l']].fragId == reqs[q[i']].fragId;
    }
    forall i, j | 0 <= i < j < |q'| && reqs'[q'[i]].fragId == reqs'[q'[j]].fragId != 0
      ensures q'[j] in parts
    {
      var i', j' := if i < k then i else i + 1, if j < k then j else j + 1;
      assert reqs[q[i']].fragId == reqs[q[j']].fragId;
    }
    forall i, j | 0 <= i < |q'| && 0 <= j < |q'| && reqs'[q'[i]].fragId == reqs'[q'[j]].fragId
      ensures reqs'[q'[i]].fdone == reqs'[q'[j]].fdone
    {
      var i', j' := if i < k then i else i + 1, if j < k then j else j + 1;
      assert reqs[q[i']].fragId == reqs[q[j']].fragId;
    }
  }

  lemma MemberRemove(reqs: map<MsgId, Req>, h: History, q: seq<MsgId>, k: nat, h': History, i: nat)
    requires QueueOk(reqs, h, q, Closed) && NoDup(q) && k < |q| && i < |q| && i != k
    requires Removable(reqs, h, q, k)
    requires SameHistory(h, h', q)
    ensures q[i] in reqs - {q[k]}
    ensures MemberOk(reqs - {q[k]}, h', RemoveAt(q, k), q[i], Closed)
  {
    var x, id := q[i], q[k];
    var reqs', q' := reqs - {id}, RemoveAt(q, k);
    assert x != id;
    RemoveAtMembers(q, k);
    assert MemberOk(reqs, h, q, x, Closed);
    if Unlatched(reqs[x]) && x !in h.parts {
      forall y | y in h'.vectors[x] ensures PartOf(reqs', h', q', x, reqs[x].fragId, y) {
        assert PartOf(reqs, h, q, x, reqs[x].fragId, y);
        var j :| 0 <= j < |q| && q[j] == y;
        assert reqs[q[j]].fdone == reqs[q[i]].fdone;
      }
    }
    if reqs[x].peer.Some? && reqs[x].peer.value.Coalesced? {
      var ps := reqs[x].peer.value.parts;
      forall j | 0 <= j < |ps| ensures PartFits(reqs', h', q', reqs[x].fragId, h'.vectors[x][j], ps[j]) {
        assert PartFits(reqs, h, q, reqs[x].fragId, h.vectors[x][j], ps[j]);
      }
    }
  }
}
