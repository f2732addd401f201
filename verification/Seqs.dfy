/** Facts about queues held as sequences: append, removal at an index, and removal of a set. */
module Seqs {

  ghost predicate NoDup<T>(q: seq<T>) {
    forall i, j :: 0 <= i < j < |q| ==> q[i] != q[j]
  }

  /** The queue after unlinking the element at index k. */
  function RemoveAt<T>(q: seq<T>, k: nat): (r: seq<T>)
    requires k < |q|
    ensures |r| == |q| - 1
    ensures forall i :: 0 <= i < k ==> r[i] == q[i]
    ensures forall i :: k <= i < |r| ==> r[i] == q[i + 1]
  {
    q[..k] + q[k + 1..]
  }

  /** The elements of q that are not in `gone`, in their order. */
  function Without<T(==,!new)>(q: seq<T>, gone: set<T>): (r: seq<T>)
    ensures forall x :: x in r <==> x in q && x !in gone
  {
    if q == [] then []
    else
      var front := Without(q[..|q| - 1], gone);
      var last := q[|q| - 1];
      assert q == q[..|q| - 1] + [last];
      if last in gone then front else front + [last]
  }

  lemma RemoveAtMembers<T>(q: seq<T>, k: nat)
    requires k < |q| && NoDup(q)
    ensures NoDup(RemoveAt(q, k))
    ensures forall x :: x in RemoveAt(q, k) <==> x in q && x != q[k]
  {
    var r := RemoveAt(q, k);
    forall x | x in q && x != q[k] ensures x in r {
      var i :| 0 <= i < |q| && q[i] == x;
      assert r[if i < k then i else i - 1] == x;
    }
    forall i, j | 0 <= i < j < |r| ensures r[i] != r[j] {
      assert r[i] == q[if i < k then i else i + 1];
      assert r[j] == q[if j < k then j else j + 1];
    }
  }

  lemma {:induction false} WithoutConcat<T(!new)>(a: seq<T>, b: seq<T>, gone: set<T>)
    ensures Without(a + b, gone) == Without(a, gone) + Without(b, gone)
  {
    if b == [] {
      assert a + b == a;
    } else {
      var b', last := b[..|b| - 1], b[|b| - 1];
      var all := a + b;
      assert all[..|all| - 1] == a + b' && all[|all| - 1] == last;
      WithoutConcat(a, b', gone);
      assert Without(all, gone) == if last in gone then Without(a + b', gone) else Without(a + b', gone) + [last];
    }
  }

  lemma {:induction false} WithoutNone<T(!new)>(q: seq<T>, gone: set<T>)
    requires forall x :: x in q ==> x !in gone
    ensures Without(q, gone) == q
  {
    if q != [] {
      var q' := q[..|q| - 1];
      assert q == q' + [q[|q| - 1]];
      WithoutNone(q', gone);
    }
  }

  /** Dropping one more element from what is left unlinks exactly that element. */
  lemma {:induction false} WithoutOneMore<T(!new)>(q: seq<T>, gone: set<T>, k: nat)
    requires NoDup(Without(q, gone)) && k < |Without(q, gone)|
    ensures Without(q, gone + {Without(q, gone)[k]}) == RemoveAt(Without(q, gone), k)
  {
    var r := Without(q, gone);
    var q' := q[..|q| - 1];
    var r' := Without(q', gone);
    var last := q[|q| - 1];
    if last in gone {
      WithoutOneMore(q', gone, k);
    } else if k == |r'| {
      forall x | x in q' ensures x !in gone ==> x != last {
        if x !in gone {
          var i :| 0 <= i < |r'| && r'[i] == x;
          assert r[i] != r[k];
        }
      }
      WithoutAgree(q', gone, gone + {last});
      assert RemoveAt(r, k) == r';
    } else {
      assert NoDup(r') by {
        forall i, j | 0 <= i < j < |r'| ensures r'[i] != r'[j] { assert r[i] != r[j]; }
      }
      WithoutOneMore(q', gone, k);
      assert r[k] != r[|r'|];
      assert RemoveAt(r, k) == RemoveAt(r', k) + [last];
    }
  }

  lemma {:induction false} WithoutAgree<T(!new)>(q: seq<T>, a: set<T>, b: set<T>)
    requires forall x :: x in q ==> (x in a <==> x in b)
    ensures Without(q, a) == Without(q, b)
  {
    if q != [] {
      assert q == q[..|q| - 1] + [q[|q| - 1]];
      WithoutAgree(q[..|q| - 1], a, b);
    }
  }

  lemma {:induction false} WithoutNoDup<T(!new)>(q: seq<T>, gone: set<T>)
    requires NoDup(q)
    ensures NoDup(Without(q, gone))
  {
    if q != [] {
      var q', last := q[..|q| - 1], q[|q| - 1];
      WithoutNoDup(q', gone);
      var r := Without(q', gone);
      forall i | 0 <= i < |r| ensures r[i] != last {
        assert r[i] in r && r[i] in q';
      }
    }
  }
}
