/** The queue that the tree stands for: entries in order of their keys, equal keys in order of arrival. */
module RbQueue {
  import opened RbShape

  ghost predicate Sorted(s: seq<Entry>) { forall i, j :: 0 <= i < j < |s| ==> s[i].key <= s[j].key }

  /** No key of s is greater than k. */
  ghost predicate NoneAbove(s: seq<Entry>, k: int) { forall i :: 0 <= i < |s| ==> s[i].key <= k }

  ghost predicate AllAbove(s: seq<Entry>, k: int) { forall i :: 0 <= i < |s| ==> k < s[i].key }

  /** The entry goes behind every entry whose key is not greater. */
  function Enqueue(s: seq<Entry>, e: Entry): seq<Entry> {
    if s == [] || e.key < s[0].key then [e] + s else [s[0]] + Enqueue(s[1..], e)
  }

  lemma {:induction false} EnqueueBetween(b: seq<Entry>, e: Entry, a: seq<Entry>)
    requires NoneAbove(b, e.key) && AllAbove(a, e.key)
    ensures Enqueue(b + a, e) == b + [e] + a
  {
    if b == [] {
      assert b + a == a && b + [e] + a == [e] + a;
    } else {
      assert (b + a)[1..] == b[1..] + a;
      EnqueueBetween(b[1..], e, a);
    }
  }

  /** In a sorted queue nothing before an entry is greater and nothing behind it is smaller. */
  lemma SortedParts(b: seq<Entry>, l: seq<Entry>, e: Entry, r: seq<Entry>, a: seq<Entry>)
    requires Sorted(b + (l + [e] + r) + a)
    ensures NoneAbove(b, e.key) && NoneAbove(l, e.key)
    ensures (forall i :: 0 <= i < |r| ==> e.key <= r[i].key) && (forall i :: 0 <= i < |a| ==> e.key <= a[i].key)
  {
    var s := b + (l + [e] + r) + a;
    var n := |b| + |l|;
    assert s[n] == e;
    forall i | 0 <= i < |b| ensures b[i].key <= e.key { assert s[i] == b[i]; }
    forall i | 0 <= i < |l| ensures l[i].key <= e.key { assert s[|b| + i] == l[i]; }
    forall i | 0 <= i < |r| ensures e.key <= r[i].key { assert s[n + 1 + i] == r[i]; }
    forall i | 0 <= i < |a| ensures e.key <= a[i].key { assert s[n + 1 + |r| + i] == a[i]; }
  }

  lemma AboveConcat(e: Entry, r: seq<Entry>, a: seq<Entry>, k: int)
    requires k < e.key && AllAbove(a, k) && forall i :: 0 <= i < |r| ==> e.key <= r[i].key
    ensures AllAbove([e] + r + a, k)
  {
  }

  lemma BelowConcat(b: seq<Entry>, l: seq<Entry>, e: Entry, k: int)
    requires e.key <= k && NoneAbove(b, k) && NoneAbove(l, e.key)
    ensures NoneAbove(b + l + [e], k)
  {
  }

  lemma {:induction false} EnqueueSorted(s: seq<Entry>, e: Entry)
    requires Sorted(s)
    ensures Sorted(Enqueue(s, e)) && (s != [] && s[0].key <= e.key ==> Enqueue(s, e)[0] == s[0])
  {
    if s != [] && s[0].key <= e.key {
      EnqueueSorted(s[1..], e);
      EnqueueElements(s[1..], e);
    }
  }

  lemma {:induction false} EnqueueElements(s: seq<Entry>, e: Entry)
    ensures multiset(Enqueue(s, e)) == multiset(s) + multiset{e}
    ensures forall i :: 0 <= i < |Enqueue(s, e)| ==> Enqueue(s, e)[i] in s || Enqueue(s, e)[i] == e
  {
    if s != [] && s[0].key <= e.key {
      EnqueueElements(s[1..], e);
      assert s == [s[0]] + s[1..];
    }
  }

  /** The entry of node n leaves the queue. */
  function Dequeue(s: seq<Entry>, n: Node): seq<Entry> {
    if s == [] then [] else if s[0].node == n then s[1..] else [s[0]] + Dequeue(s[1..], n)
  }

  lemma {:induction false} DequeueBetween(b: seq<Entry>, e: Entry, a: seq<Entry>)
    requires forall i :: 0 <= i < |b| ==> b[i].node != e.node
    ensures Dequeue(b + [e] + a, e.node) == b + a
  {
    if b == [] {
      assert (b + [e] + a)[1..] == a && b + a == a;
    } else {
      assert (b + [e] + a)[1..] == b[1..] + [e] + a;
      DequeueBetween(b[1..], e, a);
    }
  }

  lemma {:induction false} DequeueSorted(s: seq<Entry>, n: Node)
    requires Sorted(s)
    ensures Sorted(Dequeue(s, n)) && forall i :: 0 <= i < |Dequeue(s, n)| ==> Dequeue(s, n)[i] in s
  {
    if s != [] && s[0].node != n { DequeueSorted(s[1..], n); }
  }
}
