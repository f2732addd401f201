/** msg_send_chain: a queue of messages, each in several buffers, goes out with one gathering write. */
module SendChain {
  import opened Basics
  import opened Bytes

  /** struct mbuf: the data from its start to `last`, of which the first `pos` bytes are gone. */
  datatype Mbuf = Mbuf(data: seq<byte>, pos: nat)

  /** struct msg; mlen is its length when it was made. */
  datatype Msg = Msg(bufs: seq<Mbuf>, mlen: nat)

  const IOV_MAX: nat := 128
  const AGAIN: int := -2

  // ---------- What is still to be sent ----------

  function Rem(b: Mbuf): seq<byte> { if b.pos <= |b.data| then b.data[b.pos..] else [] }

  function Pending(bufs: seq<Mbuf>): seq<byte> {
    if bufs == [] then [] else Pending(bufs[..|bufs| - 1]) + Rem(bufs[|bufs| - 1])
  }

  function All(ms: seq<Msg>): seq<byte> {
    if ms == [] then [] else All(ms[..|ms| - 1]) + Pending(ms[|ms| - 1].bufs)
  }

  function Concat(iov: seq<seq<byte>>): seq<byte> {
    if iov == [] then [] else Concat(iov[..|iov| - 1]) + iov[|iov| - 1]
  }

  lemma PendingStep(bufs: seq<Mbuf>, k: nat)
    requires k < |bufs|
    ensures Pending(bufs[..k + 1]) == Pending(bufs[..k]) + Rem(bufs[k])
  {
    assert bufs[..k + 1][..k] == bufs[..k];
  }

  lemma AllStep(ms: seq<Msg>, k: nat)
    requires k < |ms|
    ensures All(ms[..k + 1]) == All(ms[..k]) + Pending(ms[k].bufs)
  {
    assert ms[..k + 1][..k] == ms[..k];
  }

  lemma ConcatStep(iov: seq<seq<byte>>, x: seq<byte>)
    ensures Concat(iov + [x]) == Concat(iov) + x
  {
    assert (iov + [x])[..|iov|] == iov;
  }

  /** The first n bytes dropped. */
  function Drop(s: seq<byte>, n: nat): seq<byte> { if n <= |s| then s[n..] else [] }

  /** What of n bytes is left for the part behind the first k. */
  function Over(n: nat, k: nat): nat { if n <= k then 0 else n - k }

  lemma DropConcat(a: seq<byte>, b: seq<byte>, n: nat)
    ensures Drop(a + b, n) == Drop(a, n) + Drop(b, Over(n, |a|))
  {
  }

  // ---------- Gathering ----------

  /** The vector holds the first bytes of `all`, and all of them unless it is full. */
  ghost predicate GatheredParts(iov: seq<seq<byte>>, nsend: nat, limit: nat, all: seq<byte>) {
    && |iov| <= IOV_MAX && nsend == |Concat(iov)| && nsend <= limit && Concat(iov) <= all
    && (|iov| < IOV_MAX && nsend < limit ==> Concat(iov) == all)
  }

  ghost predicate Gathered(iov: seq<seq<byte>>, nsend: nat, limit: nat, all: seq<byte>) {
    forall u :: Lock(0, u) ==> GatheredParts(iov, nsend, limit, all)
  }

  lemma GatherStep(iov: seq<seq<byte>>, nsend: nat, limit: nat, rest: seq<byte>, n: nat, all: seq<byte>)
    requires |iov| < IOV_MAX && nsend < limit && Gathered(iov, nsend, limit, all)
    requires n == if nsend + |rest| > limit then limit - nsend else |rest|
    ensures Gathered(iov + [rest[..n]], nsend + n, limit, all + rest)
    ensures rest == [] ==> Gathered(iov, nsend, limit, all + rest)
  {
    assert Lock(0, 0);
    ConcatStep(iov, rest[..n]);
    if rest == [] { assert all + rest == all; }
  }

  /** The buffers of one message join the vector, as far as there is room. */
  method GatherOne(bufs: seq<Mbuf>, iov0: seq<seq<byte>>, nsend0: nat, limit: nat, ghost all: seq<byte>)
    returns (iov: seq<seq<byte>>, nsend: nat)
    requires |iov0| < IOV_MAX && nsend0 < limit && Gathered(iov0, nsend0, limit, all)
    ensures Gathered(iov, nsend, limit, all + Pending(bufs)) && |iov| <= IOV_MAX && nsend <= limit
  {
    iov, nsend := iov0, nsend0;
    var k := 0;
    assert all + Pending(bufs[..0]) == all;
    while k < |bufs| && |iov| < IOV_MAX && nsend < limit
      invariant 0 <= k <= |bufs| && Gathered(iov, nsend, limit, all + Pending(bufs[..k]))
      invariant |iov| <= IOV_MAX && nsend <= limit
    {
      var rest := Rem(bufs[k]);
      var mlen := if nsend + |rest| > limit then limit - nsend else |rest|;
      ghost var before := Pending(bufs[..k]);
      PendingStep(bufs, k);
      Assoc(all, before, rest);
      GatherStep(iov, nsend, limit, rest, mlen, all + before);
      if rest != [] {
        iov := iov + [rest[..mlen]];
        nsend := nsend + mlen;
      }
      k := k + 1;
    }
    GatherEnd(bufs, k, iov, nsend, limit, all);
  }

  lemma GatherEnd(bufs: seq<Mbuf>, k: nat, iov: seq<seq<byte>>, nsend: nat, limit: nat, all: seq<byte>)
    requires k <= |bufs| && Gathered(iov, nsend, limit, all + Pending(bufs[..k]))
    requires k == |bufs| || |iov| >= IOV_MAX || nsend >= limit
    ensures Gathered(iov, nsend, limit, all + Pending(bufs))
  {
    assert Lock(0, 0);
    Prefix(bufs, k, all);
    if k == |bufs| { assert bufs[..k] == bufs; }
  }

  lemma Prefix(bufs: seq<Mbuf>, k: nat, all: seq<byte>)
    requires k <= |bufs|
    ensures all + Pending(bufs[..k]) <= all + Pending(bufs)
  {
    PendingGrow(bufs, k, |bufs|);
    assert bufs[..|bufs|] == bufs;
  }

  lemma {:induction false} PendingGrow(bufs: seq<Mbuf>, i: nat, j: nat)
    requires i <= j <= |bufs|
    ensures Pending(bufs[..i]) <= Pending(bufs[..j])
  {
    if i < j {
      PendingStep(bufs, j - 1);
      PendingGrow(bufs, i, j - 1);
    }
  }

  /** The first m messages are collected, until the vector or the limit is full. */
  method Gather(ms: seq<Msg>, limit: nat) returns (iov: seq<seq<byte>>, nsend: nat, m: nat)
    requires ms != [] && limit > 0
    ensures 0 < m <= |ms| && Gathered(iov, nsend, limit, All(ms[..m]))
    ensures m == |ms| || |iov| == IOV_MAX || nsend == limit
  {
    iov, nsend, m := [], 0, 0;
    while m < |ms| && |iov| < IOV_MAX && nsend < limit
      invariant 0 <= m <= |ms| && Gathered(iov, nsend, limit, All(ms[..m])) && |iov| <= IOV_MAX && nsend <= limit
      invariant m == 0 ==> |iov| < IOV_MAX && nsend < limit
    {
      AllStep(ms, m);
      iov, nsend := GatherOne(ms[m].bufs, iov, nsend, limit, All(ms[..m]));
      m := m + 1;
    }
  }

  // ---------- Settling ----------

  /** Buffer k after n bytes are taken off the buffers. */
  function Advanced(bufs: seq<Mbuf>, k: nat, n: nat): Mbuf
    requires k < |bufs|
  {
    var m, len := Over(n, |Pending(bufs[..k])|), |Rem(bufs[k])|;
    if len == 0 then bufs[k] else bufs[k].(pos := bufs[k].pos + if m <= len then m else len)
  }

  ghost predicate AllAdvanced(bufs: seq<Mbuf>, bufs': seq<Mbuf>, n: nat) {
    |bufs'| == |bufs| && forall u :: Lock(1, u) ==> forall k :: 0 <= k < |bufs| ==> bufs'[k] == Advanced(bufs, k, n)
  }

  lemma {:induction false} AdvancedPending(bufs: seq<Mbuf>, bufs': seq<Mbuf>, n: nat)
    requires AllAdvanced(bufs, bufs', n)
    ensures Pending(bufs') == Drop(Pending(bufs), n)
    decreases |bufs|
  {
    if bufs != [] {
      var k := |bufs| - 1;
      var t, t', b, b' := bufs[..k], bufs'[..k], bufs[k], bufs'[k];
      AdvancedFront(bufs, bufs', n, k);
      AdvancedPending(t, t', n);
      AdvancedOne(b, b', Over(n, |Pending(t)|));
      DropConcat(Pending(t), Rem(b), n);
    }
  }

  lemma AdvancedFront(bufs: seq<Mbuf>, bufs': seq<Mbuf>, n: nat, k: nat)
    requires AllAdvanced(bufs, bufs', n) && k < |bufs|
    ensures AllAdvanced(bufs[..k], bufs'[..k], n) && bufs'[k] == Advanced(bufs, k, n)
  {
    assert Lock(1, 0);
    forall j | 0 <= j < k ensures bufs'[..k][j] == Advanced(bufs[..k], j, n) {
      assert bufs[..k][..j] == bufs[..j] && bufs'[j] == Advanced(bufs, j, n);
    }
  }

  lemma AdvancedOne(b: Mbuf, b': Mbuf, m: nat)
    requires b' == if |Rem(b)| == 0 then b else b.(pos := b.pos + if m <= |Rem(b)| then m else |Rem(b)|)
    ensures Rem(b') == Drop(Rem(b), m)
  {
  }

  lemma AdvancedAt(bufs: seq<Mbuf>, k: nat, n: nat, m: nat)
    requires k < |bufs| && n == m + |Pending(bufs[..k])|
    ensures var b := bufs[k];
      && (Rem(b) == [] ==> Advanced(bufs, k, n) == b)
      && (m < |Rem(b)| ==> Advanced(bufs, k, n) == b.(pos := b.pos + m))
      && (Rem(b) != [] && m >= |Rem(b)| ==> Advanced(bufs, k, n) == b.(pos := |b.data|))
    ensures |Pending(bufs[..k + 1])| == |Pending(bufs[..k])| + |Rem(bufs[k])|
  {
    PendingStep(bufs, k);
  }

  /** The m bytes that are left are taken off buffer k, as far as they reach. */
  method SettleBuffer(bufs: seq<Mbuf>, bufs0: seq<Mbuf>, k: nat, ghost n: nat, m: nat)
    returns (bufs': seq<Mbuf>, m': nat, stop: bool)
    requires k < |bufs| == |bufs0| && Walked(bufs, bufs0, k, n, m)
    ensures |bufs'| == |bufs| && (!stop ==> Walked(bufs, bufs', k + 1, n, m'))
    ensures stop ==> m' == 0 && n < |Pending(bufs)| && Pending(bufs') == Drop(Pending(bufs), n)
  {
    var b := bufs[k];
    bufs', m', stop := bufs0, m, false;
    if Rem(b) == [] {
      WalkPast(bufs, bufs0, k, n, m);
    } else if m < |Rem(b)| {
      WalkInto(bufs, bufs0, k, n, m);
      bufs', m', stop := bufs0[k := b.(pos := b.pos + m)], 0, true;
    } else {
      bufs', m' := bufs0[k := b.(pos := |b.data|)], m - |Rem(b)|;
      WalkOver(bufs, bufs0, k, n, m, bufs', m');
    }
  }

  /** The next n written bytes are taken off the buffers of a message. */
  method Settle(bufs: seq<Mbuf>, n: nat) returns (bufs': seq<Mbuf>, n': nat, complete: bool)
    requires n > 0
    ensures Pending(bufs') == Drop(Pending(bufs), n) && (complete <==> n >= |Pending(bufs)|)
    ensures n' == Over(n, |Pending(bufs)|)
  {
    bufs', n', complete := bufs, n, true;
    var k := 0;
    while k < |bufs|
      invariant 0 <= k <= |bufs| == |bufs'| && complete && Walked(bufs, bufs', k, n, n')
    {
      var stop;
      bufs', n', stop := SettleBuffer(bufs, bufs', k, n, n');
      if stop {
        complete := false;
        return;
      }
      k := k + 1;
    }
    WalkEnd(bufs, bufs', n, n');
  }

  lemma WalkEnd(bufs: seq<Mbuf>, bufs': seq<Mbuf>, n: nat, m: nat)
    requires Walked(bufs, bufs', |bufs|, n, m)
    ensures Pending(bufs') == Drop(Pending(bufs), n) && n == m + |Pending(bufs)|
  {
    assert Lock(0, 0);
    assert bufs[..|bufs|] == bufs;
    AdvancedPending(bufs, bufs', n);
  }

  /** m of the n bytes are left behind the first k buffers. */
  ghost predicate Walked(bufs: seq<Mbuf>, bufs': seq<Mbuf>, k: nat, n: nat, m: nat) {
    forall u :: Lock(0, u) ==> WalkedParts(bufs, bufs', k, n, m)
  }

  ghost predicate WalkedParts(bufs: seq<Mbuf>, bufs': seq<Mbuf>, k: nat, n: nat, m: nat) {
    && k <= |bufs| == |bufs'| && n == m + |Pending(bufs[..k])|
    && (forall j :: 0 <= j < k ==> bufs'[j] == Advanced(bufs, j, n))
    && (forall j :: k <= j < |bufs| ==> bufs'[j] == bufs[j])
  }

  lemma WalkPast(bufs: seq<Mbuf>, bufs': seq<Mbuf>, k: nat, n: nat, m: nat)
    requires k < |bufs| == |bufs'| && Walked(bufs, bufs', k, n, m) && Rem(bufs[k]) == []
    ensures Walked(bufs, bufs', k + 1, n, m)
  {
    assert Lock(0, 0);
    AdvancedAt(bufs, k, n, m);
  }

  lemma WalkOver(bufs: seq<Mbuf>, bufs0: seq<Mbuf>, k: nat, n: nat, m: nat, bufs': seq<Mbuf>, m': nat)
    requires k < |bufs| == |bufs0| && Walked(bufs, bufs0, k, n, m) && Rem(bufs[k]) != [] && m >= |Rem(bufs[k])|
    requires bufs' == bufs0[k := bufs[k].(pos := |bufs[k].data|)] && m' == m - |Rem(bufs[k])|
    ensures Walked(bufs, bufs', k + 1, n, m')
  {
    assert Lock(0, 0);
    AdvancedAt(bufs, k, n, m);
  }

  lemma WalkInto(bufs: seq<Mbuf>, bufs0: seq<Mbuf>, k: nat, n: nat, m: nat)
    requires k < |bufs| == |bufs0| && Walked(bufs, bufs0, k, n, m) && m < |Rem(bufs[k])|
    ensures n < |Pending(bufs)| && Pending(bufs0[k := bufs[k].(pos := bufs[k].pos + m)]) == Drop(Pending(bufs), n)
  {
    var bufs' := bufs0[k := bufs[k].(pos := bufs[k].pos + m)];
    EndsInside(bufs, bufs0, k, n, m, bufs');
    AdvancedPending(bufs, bufs', n);
  }

  lemma EndsInside(bufs: seq<Mbuf>, bufs0: seq<Mbuf>, k: nat, n: nat, m: nat, bufs': seq<Mbuf>)
    requires k < |bufs| == |bufs0| && Walked(bufs, bufs0, k, n, m) && m < |Rem(bufs[k])|
    requires bufs' == bufs0[k := bufs[k].(pos := bufs[k].pos + m)]
    ensures n < |Pending(bufs)| && AllAdvanced(bufs, bufs', n)
  {
    assert Lock(0, 0);
    AdvancedAt(bufs, k, n, m);
    LengthPast(bufs, k, n);
    forall j | 0 <= j < |bufs| ensures bufs'[j] == Advanced(bufs, j, n) {
      if j > k { assert bufs'[j] == bufs[j]; }
    }
  }

  /** The bytes end inside buffer k, and the buffers behind it stay as they are. */
  lemma LengthPast(bufs: seq<Mbuf>, k: nat, n: nat)
    requires k < |bufs| && n < |Pending(bufs[..k + 1])|
    ensures n < |Pending(bufs)| && forall j :: k < j < |bufs| ==> Advanced(bufs, j, n) == bufs[j]
  {
    forall j | k < j <= |bufs| ensures n < |Pending(bufs[..j])| { PendingGrow(bufs, k + 1, j); }
    assert bufs[..|bufs|] == bufs;
  }

  // ---------- Sending ----------

  /** A message not sent yet is empty exactly if it never held anything. */
  ghost predicate Unsent(v: Msg) { v.mlen == 0 <==> Pending(v.bufs) == [] }

  /** Message i after n bytes are taken off the messages. */
  ghost predicate Settled(was: seq<Msg>, i: nat, v: Msg, n: nat)
    requires i < |was|
  {
    Pending(v.bufs) == Drop(Pending(was[i].bufs), Over(n, |All(was[..i])|)) && v.mlen == was[i].mlen
  }

  lemma {:induction false} SettledAll(was: seq<Msg>, ms: seq<Msg>, n: nat)
    requires |ms| == |was| && forall i :: 0 <= i < |was| ==> Settled(was, i, ms[i], n)
    ensures All(ms) == Drop(All(was), n)
    decreases |was|
  {
    if was != [] {
      var k := |was| - 1;
      forall i | 0 <= i < k ensures Settled(was[..k], i, ms[..k][i], n) {
        assert Settled(was, i, ms[i], n) && was[..k][..i] == was[..i];
      }
      SettledAll(was[..k], ms[..k], n);
      assert Settled(was, k, ms[k], n);
      DropConcat(All(was[..k]), Pending(was[k].bufs), n);
    }
  }

  /** What the messages behind the collected ones look like. */
  lemma SettledBehind(was: seq<Msg>, m: nat, i: nat, n: nat)
    requires m <= i < |was| && n <= |All(was[..m])|
    ensures Settled(was, i, was[i], n)
  {
    AllGrows(was, m, i);
  }

  lemma {:induction false} AllGrows(ms: seq<Msg>, i: nat, j: nat)
    requires i <= j <= |ms|
    ensures |All(ms[..i])| <= |All(ms[..j])| && All(ms[..i]) <= All(ms[..j])
  {
    if i < j {
      AllStep(ms, j - 1);
      AllGrows(ms, i, j - 1);
    }
  }

  lemma Glue(c: seq<byte>, all: seq<byte>, n: nat)
    requires c <= all && n <= |c|
    ensures c[..n] + Drop(all, n) == all
  {
  }

  lemma Conserved(was: seq<Msg>, ms: seq<Msg>, m: nat, c: seq<byte>, n: nat)
    requires m <= |was| == |ms| && (forall i :: m <= i < |was| ==> ms[i] == was[i])
    requires (forall i :: 0 <= i < m ==> Settled(was, i, ms[i], n)) && c <= All(was[..m]) && n <= |c|
    ensures c[..n] + All(ms) == All(was)
  {
    forall i | 0 <= i < |was| ensures Settled(was, i, ms[i], n) {
      if i >= m { SettledBehind(was, m, i, n); }
    }
    SettledAll(was, ms, n);
    AllGrows(was, m, |was|);
    assert was[..|was|] == was;
    Glue(c, All(was), n);
  }

  /** One message of the queue, with nsent written bytes left to account for. */
  method SettleOne(v: Msg, nsent: nat) returns (v': Msg, left: nat, finished: bool)
    requires Unsent(v)
    ensures Pending(v'.bufs) == Drop(Pending(v.bufs), nsent) && v'.mlen == v.mlen
      && left == Over(nsent, |Pending(v.bufs)|)
    ensures (finished <==> Pending(v'.bufs) == []) && (!finished ==> Unsent(v'))
  {
    v', left, finished := v, nsent, false;
    if nsent == 0 {
      finished := v.mlen == 0;
    } else {
      var bufs;
      bufs, left, finished := Settle(v.bufs, nsent);
      v' := v.(bufs := bufs);
    }
  }

  /** msg_send_chain on the messages that send_next hands out one after the other; `write` is what the
      system call returns for a number of bytes. The first m messages are collected: their first bytes, up
      to the limits, are in `iov`. What the call writes of them is `sent`, and it is no longer pending;
      send_done is called on exactly the collected messages that have nothing left, those in `done`. */
  method Send(ms: array<Msg>, limit: nat, write: nat -> int)
    returns (iov: seq<seq<byte>>, nsend: nat, sent: seq<byte>, done: seq<bool>, ok: bool, m: nat)
    requires ms.Length > 0 && limit > 0
    requires (forall n :: write(n) <= n) && forall i :: 0 <= i < ms.Length ==> Unsent(ms[i])
    modifies ms
    ensures 0 < m <= ms.Length && GatheredParts(iov, nsend, limit, old(All(ms[..m])))
    ensures m == ms.Length || |iov| == IOV_MAX || nsend == limit
    ensures sent == Concat(iov)[..Written(nsend, write)] && sent + All(ms[..]) == old(All(ms[..]))
    ensures |done| == m
    ensures forall i :: 0 <= i < m ==> (done[i] <==> Pending(ms[i].bufs) == []) && (!done[i] ==> Unsent(ms[i]))
    ensures forall i :: m <= i < ms.Length ==> ms[i] == old(ms[i])
    ensures ok <==> nsend == 0 || write(nsend) >= 0 || write(nsend) == AGAIN
  {
    ghost var was := ms[..];
    iov, nsend, m := Gather(ms[..], limit);
    assert Lock(0, 0);
    assert ms[..][..m] == ms[..m];
    var n := if nsend != 0 then write(nsend) else 0;
    var nsent: nat := if n > 0 then n else 0;
    sent := Concat(iov)[..nsent];
    done := SettleMessages(ms, m, nsent);
    Conserved(was, ms[..], m, Concat(iov), nsent);
    ok := n >= 0 || n == AGAIN;
  }

  /** The bytes written by one system call; nothing is written when there is nothing to write. */
  function Written(nsend: nat, write: nat -> int): (n: nat)
    requires forall n :: write(n) <= n
    ensures n <= nsend
  {
    if nsend != 0 && write(nsend) > 0 then write(nsend) else 0
  }

  method SettleMessages(ms: array<Msg>, m: nat, n: nat) returns (done: seq<bool>)
    requires m <= ms.Length && forall i :: 0 <= i < ms.Length ==> Unsent(ms[i])
    modifies ms
    ensures |done| == m && forall i :: 0 <= i < m ==> Settled(old(ms[..]), i, ms[i], n)
    ensures forall i :: 0 <= i < m ==> (done[i] <==> Pending(ms[i].bufs) == []) && (!done[i] ==> Unsent(ms[i]))
    ensures forall i :: m <= i < ms.Length ==> ms[i] == old(ms[i])
  {
    ghost var was := ms[..];
    var nsent := n;
    done := [];
    var i := 0;
    while i < m
      invariant 0 <= i <= m && |done| == i && forall k :: i <= k < ms.Length ==> ms[k] == was[k]
      invariant nsent == Over(n, |All(was[..i])|) && forall k :: 0 <= k < i ==> Settled(was, k, ms[k], n)
      invariant forall k :: 0 <= k < i ==> (done[k] <==> Pending(ms[k].bufs) == []) && (!done[k] ==> Unsent(ms[k]))
    {
      AllStep(was, i);
      var v, left, finished := SettleOne(ms[i], nsent);
      ms[i] := v;
      nsent, done := left, done + [finished];
      i := i + 1;
    }
  }
}
