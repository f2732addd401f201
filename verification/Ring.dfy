/** The continuum of a server pool: which points a rebuild puts on it, and which server a hash goes to. */
module Ring {
  /** struct server, as far as the distribution is concerned. */
  datatype Server = Server(weight: nat, nextRetry: int, failures: nat)

  /** struct continuum. */
  datatype Point = Point(index: nat, value: nat)

  // ---------- Dispatch ----------

  ghost predicate Sorted(ring: seq<Point>) { forall i, j :: 0 <= i < j < |ring| ==> ring[i].value <= ring[j].value }

  /** The first point that is not below h, or the length of the ring. */
  function FirstAtLeast(ring: seq<Point>, h: nat): (p: nat)
    ensures p <= |ring|
  {
    if ring == [] || ring[0].value >= h then 0 else 1 + FirstAtLeast(ring[1..], h)
  }

  /** The server a hash goes to: that of the first point not below it, or of the first point of all. */
  function Owner(ring: seq<Point>, h: nat): nat
    requires ring != []
  {
    var p := FirstAtLeast(ring, h);
    ring[if p == |ring| then 0 else p].index
  }

  lemma {:induction false} FirstAt(ring: seq<Point>, h: nat)
    ensures var p := FirstAtLeast(ring, h);
      (forall i :: 0 <= i < p ==> ring[i].value < h) && (p < |ring| ==> ring[p].value >= h)
  {
    if ring != [] && ring[0].value < h { FirstAt(ring[1..], h); }
  }

  lemma FirstIs(ring: seq<Point>, h: nat, p: nat)
    requires p <= |ring| && (forall i :: 0 <= i < p ==> ring[i].value < h) && (p < |ring| ==> ring[p].value >= h)
    ensures FirstAtLeast(ring, h) == p
  {
    FirstAt(ring, h);
  }

  // ---------- Losing a server ----------

  /** x is the point of s a hash goes to, whatever the order of s. */
  ghost predicate Successor(s: seq<Point>, h: nat, x: Point) {
    && x in s
    && if x.value >= h then forall y <- s :: y.value >= h ==> x.value <= y.value
       else forall y <- s :: y.value < h && x.value <= y.value
  }

  ghost predicate DistinctValues(s: seq<Point>) { forall x <- s, y <- s :: x.value == y.value ==> x == y }

  /** The ring is the given points in order. */
  ghost predicate IsRing(ring: seq<Point>, points: seq<Point>) { Sorted(ring) && multiset(ring) == multiset(points) }

  lemma OwnerIsSuccessor(ring: seq<Point>, points: seq<Point>, h: nat) returns (x: Point)
    requires IsRing(ring, points) && ring != []
    ensures Successor(points, h, x) && Owner(ring, h) == x.index
  {
    FirstAt(ring, h);
    var p := FirstAtLeast(ring, h);
    x := ring[if p == |ring| then 0 else p];
    forall y | y in points ensures y in ring { assert y in multiset(points); }
    assert x in multiset(ring);
  }

  function Without(s: seq<Point>, d: nat): seq<Point> {
    if s == [] then []
    else if s[0].index == d then Without(s[1..], d)
    else [s[0]] + Without(s[1..], d)
  }

  lemma {:induction false} WithoutMembers(s: seq<Point>, d: nat)
    ensures forall x :: x in Without(s, d) <==> x in s && x.index != d
  {
    if s != [] {
      assert forall x :: x in s <==> x == s[0] || x in s[1..];
      WithoutMembers(s[1..], d);
    }
  }

  /** When the points of one server go and no other, every hash that did not go to that server still goes
      where it went. */
  lemma MinimalDisruption(points: seq<Point>, ring: seq<Point>, ring': seq<Point>, d: nat, h: nat)
    requires DistinctValues(points) && IsRing(ring, points) && IsRing(ring', Without(points, d))
    requires ring != [] && ring' != [] && Owner(ring, h) != d
    ensures Owner(ring', h) == Owner(ring, h)
  {
    var x := OwnerIsSuccessor(ring, points, h);
    var x' := OwnerIsSuccessor(ring', Without(points, d), h);
    WithoutMembers(points, d);
    assert Successor(Without(points, d), h, x);
    assert x'.value == x.value;
  }

  // ---------- Sorting ----------

  function Insert(s: seq<Point>, x: Point): seq<Point> {
    if s == [] || s[|s| - 1].value <= x.value then s + [x]
    else Insert(s[..|s| - 1], x) + [s[|s| - 1]]
  }

  function Sort(s: seq<Point>): seq<Point> {
    if s == [] then [] else Insert(Sort(s[..|s| - 1]), s[|s| - 1])
  }

  lemma SortedAppend(r: seq<Point>, z: Point)
    requires Sorted(r) && forall i :: 0 <= i < |r| ==> r[i].value <= z.value
    ensures Sorted(r + [z])
  {
  }

  lemma {:induction false} InsertElements(s: seq<Point>, x: Point)
    ensures multiset(Insert(s, x)) == multiset(s) + multiset{x}
    decreases |s|
  {
    if s != [] && s[|s| - 1].value > x.value {
      assert s == s[..|s| - 1] + [s[|s| - 1]];
      InsertElements(s[..|s| - 1], x);
    }
  }

  lemma {:induction false} InsertBelow(s: seq<Point>, x: Point, z: Point)
    requires x.value <= z.value && forall i :: 0 <= i < |s| ==> s[i].value <= z.value
    ensures forall i :: 0 <= i < |Insert(s, x)| ==> Insert(s, x)[i].value <= z.value
    decreases |s|
  {
    if s != [] && s[|s| - 1].value > x.value { InsertBelow(s[..|s| - 1], x, z); }
  }

  lemma {:induction false} InsertSorted(s: seq<Point>, x: Point)
    requires Sorted(s)
    ensures Sorted(Insert(s, x))
    decreases |s|
  {
    if s == [] || s[|s| - 1].value <= x.value {
      SortedAppend(s, x);
    } else {
      var t, z := s[..|s| - 1], s[|s| - 1];
      InsertSorted(t, x);
      InsertBelow(t, x, z);
      SortedAppend(Insert(t, x), z);
    }
  }

  lemma {:induction false} SortIsRing(s: seq<Point>)
    ensures IsRing(Sort(s), s) && |Sort(s)| == |s|
    decreases |s|
  {
    if s != [] {
      SortIsRing(s[..|s| - 1]);
      InsertSorted(Sort(s[..|s| - 1]), s[|s| - 1]);
      InsertElements(Sort(s[..|s| - 1]), s[|s| - 1]);
      assert s == s[..|s| - 1] + [s[|s| - 1]];
    }
    assert |multiset(Sort(s))| == |Sort(s)| && |multiset(s)| == |s|;
  }

  // ---------- The points of a rebuild ----------

  const POINTS_PER_SERVER: nat := 160
  const POINTS_PER_HASH: nat := 4
  const MAX_SERVERS: nat := 0x1_0000_0000

  /** Whether a server takes part in a rebuild at time `now`. */
  predicate Up(v: Server, eject: bool, now: int) { !eject || v.nextRetry <= now }

  function Alive(ss: seq<Server>, eject: bool, now: int): (n: nat)
    ensures n <= |ss|
  {
    if ss == [] then 0
    else Alive(ss[..|ss| - 1], eject, now) + if Up(ss[|ss| - 1], eject, now) then 1 else 0
  }

  function Weight(ss: seq<Server>, eject: bool, now: int): nat {
    if ss == [] then 0
    else Weight(ss[..|ss| - 1], eject, now) + if Up(ss[|ss| - 1], eject, now) then ss[|ss| - 1].weight else 0
  }

  /** The part of 40 points per live server that a server of weight w gets. */
  function Share(w: nat, total: nat, n: nat): real
    requires total > 0
  {
    w as real / total as real * POINTS_PER_SERVER as real / POINTS_PER_HASH as real * n as real
  }

  const EPSILON: real := 0.0000000001

  /** How often the name of a server is hashed, each time for four points. */
  function Rounds(w: nat, total: nat, n: nat): (q: nat)
    requires total > 0
  {
    ShareNotNegative(w, total, n);
    (Share(w, total, n) + EPSILON).Floor
  }

  lemma ShareNotNegative(w: nat, total: nat, n: nat)
    requires total > 0
    ensures Share(w, total, n) >= 0.0
  {
    var a := w as real / total as real;
    assert a >= 0.0;
    assert a * POINTS_PER_SERVER as real / POINTS_PER_HASH as real >= 0.0;
  }

  lemma ShareIs(w: nat, total: nat, n: nat)
    requires total > 0
    ensures Share(w, total, n) == w as real * (40.0 * n as real / total as real)
  {
    var t, m := total as real, n as real;
    assert w as real / t * 160.0 / 4.0 == w as real / t * 40.0;
    assert w as real / t * 40.0 * m == w as real * (40.0 * m / t);
  }

  lemma ShareAdd(a: nat, b: nat, total: nat, n: nat)
    requires total > 0
    ensures Share(a + b, total, n) == Share(a, total, n) + Share(b, total, n)
  {
    ShareIs(a, total, n);
    ShareIs(b, total, n);
    ShareIs(a + b, total, n);
    var c := 40.0 * n as real / total as real;
    assert (a + b) as real * c == a as real * c + b as real * c;
  }

  lemma ShareAll(total: nat, n: nat)
    requires total > 0
    ensures Share(total, total, n) == 40.0 * n as real
  {
    ShareIs(total, total, n);
    var t, x := total as real, 40.0 * n as real;
    assert t * (x / t) == x;
  }

  /** The points of server i: f gives the value of each. */
  function Block(i: nat, k: nat, f: (nat, nat) -> nat): seq<Point> {
    seq(k, j requires 0 <= j < k => Point(i, f(i, j)))
  }

  /** The points of the live servers, for a total weight and a number of live servers. */
  function Points(ss: seq<Server>, eject: bool, now: int, total: nat, n: nat, f: (nat, nat) -> nat): seq<Point>
    requires total > 0
  {
    if ss == [] then []
    else
      var i := |ss| - 1;
      Points(ss[..i], eject, now, total, n, f)
      + if Up(ss[i], eject, now) then Block(i, POINTS_PER_HASH * Rounds(ss[i].weight, total, n), f) else []
  }

  function Quota(ss: seq<Server>, eject: bool, now: int, total: nat, n: nat): nat
    requires total > 0
  {
    if ss == [] then 0
    else
      var i := |ss| - 1;
      Quota(ss[..i], eject, now, total, n) + if Up(ss[i], eject, now) then Rounds(ss[i].weight, total, n) else 0
  }

  lemma {:induction false} PointsCount(ss: seq<Server>, eject: bool, now: int, total: nat, n: nat, f: (nat, nat) -> nat)
    requires total > 0
    ensures |Points(ss, eject, now, total, n, f)| == POINTS_PER_HASH * Quota(ss, eject, now, total, n)
    ensures forall x <- Points(ss, eject, now, total, n, f) :: x.index < |ss| && Up(ss[x.index], eject, now)
  {
    if ss != [] { PointsCount(ss[..|ss| - 1], eject, now, total, n, f); }
  }

  lemma {:induction false} QuotaBound(ss: seq<Server>, eject: bool, now: int, total: nat, n: nat)
    requires total > 0
    ensures Quota(ss, eject, now, total, n) as real
         <= Share(Weight(ss, eject, now), total, n) + Alive(ss, eject, now) as real * EPSILON
  {
    if ss == [] {
      ShareNotNegative(0, total, n);
    } else {
      var i := |ss| - 1;
      QuotaBound(ss[..i], eject, now, total, n);
      ShareAdd(Weight(ss[..i], eject, now), ss[i].weight, total, n);
    }
  }

  /** The points written never exceed 160 per live server. */
  lemma {:induction false} PointsFit(ss: seq<Server>, eject: bool, now: int, f: (nat, nat) -> nat)
    requires Weight(ss, eject, now) > 0 && |ss| < MAX_SERVERS
    ensures var n := Alive(ss, eject, now);
      |Points(ss, eject, now, Weight(ss, eject, now), n, f)| <= POINTS_PER_SERVER * n
  {
    var total, n := Weight(ss, eject, now), Alive(ss, eject, now);
    QuotaBound(ss, eject, now, total, n);
    ShareAll(total, n);
    RoundDown(Quota(ss, eject, now, total, n), n);
    PointsCount(ss, eject, now, total, n, f);
  }

  lemma RoundDown(q: nat, n: nat)
    requires q as real <= 40.0 * n as real + n as real * EPSILON && n < MAX_SERVERS
    ensures q <= 40 * n
  {
    assert n as real * EPSILON < 1.0;
    assert (q - 40 * n) as real < 1.0;
  }

  lemma {:induction false} Light(ss: seq<Server>, eject: bool, now: int, total: nat, n: nat)
    requires forall i :: 0 <= i < |ss| && Up(ss[i], eject, now) ==> ss[i].weight * n < total
    ensures Weight(ss, eject, now) * n <= Alive(ss, eject, now) * (total - 1)
  {
    if ss != [] {
      var i := |ss| - 1;
      Light(ss[..i], eject, now, total, n);
      if Up(ss[i], eject, now) {
        LightSum(Weight(ss[..i], eject, now), ss[i].weight, Alive(ss[..i], eject, now), total, n);
      }
    }
  }

  lemma LightSum(w: nat, x: nat, a: nat, total: nat, n: nat)
    requires w * n <= a * (total - 1) && x * n < total
    ensures (w + x) * n <= (a + 1) * (total - 1)
  {
    assert (w + x) * n == w * n + x * n;
    assert (a + 1) * (total - 1) == a * (total - 1) + (total - 1);
  }

  /** Some live server weighs at least the average. */
  lemma {:induction false} Heaviest(ss: seq<Server>, eject: bool, now: int) returns (i: nat)
    requires Weight(ss, eject, now) > 0
    ensures i < |ss| && Up(ss[i], eject, now) && ss[i].weight * Alive(ss, eject, now) >= Weight(ss, eject, now)
  {
    var total, n := Weight(ss, eject, now), Alive(ss, eject, now);
    WeightAlive(ss, eject, now);
    if forall i :: 0 <= i < |ss| && Up(ss[i], eject, now) ==> ss[i].weight * n < total {
      Light(ss, eject, now, total, n);
      assert false;
    }
    i :| 0 <= i < |ss| && Up(ss[i], eject, now) && ss[i].weight * n >= total;
  }

  lemma {:induction false} QuotaAtLeast(ss: seq<Server>, eject: bool, now: int, total: nat, n: nat, i: nat)
    requires total > 0 && i < |ss| && Up(ss[i], eject, now)
    ensures Quota(ss, eject, now, total, n) >= Rounds(ss[i].weight, total, n)
  {
    if i < |ss| - 1 { QuotaAtLeast(ss[..|ss| - 1], eject, now, total, n, i); }
  }

  /** There are points whenever there is a live server. */
  lemma {:induction false} PointsExist(ss: seq<Server>, eject: bool, now: int, f: (nat, nat) -> nat)
    requires Weight(ss, eject, now) > 0
    ensures var n := Alive(ss, eject, now);
      |Points(ss, eject, now, Weight(ss, eject, now), n, f)| >= POINTS_PER_SERVER
  {
    var total, n := Weight(ss, eject, now), Alive(ss, eject, now);
    var i := Heaviest(ss, eject, now);
    HeavyShare(ss[i].weight, total, n);
    QuotaAtLeast(ss, eject, now, total, n, i);
    PointsCount(ss, eject, now, total, n, f);
  }

  lemma HeavyShare(w: nat, total: nat, n: nat)
    requires total > 0 && w * n >= total
    ensures Rounds(w, total, n) >= 40
  {
    ShareIs(w, total, n);
    var t, x, y := total as real, w as real, n as real;
    assert x * y >= t by { assert (w * n) as real == x * y; }
    assert x * (40.0 * y / t) == 40.0 * (x * y) / t;
    assert 40.0 * (x * y) / t >= 40.0;
  }

  lemma {:induction false} WeightAlive(ss: seq<Server>, eject: bool, now: int)
    ensures Weight(ss, eject, now) > 0 ==> Alive(ss, eject, now) > 0
  {
    if ss != [] { WeightAlive(ss[..|ss| - 1], eject, now); }
  }

  /** With equal weights every live server has 160 points, however many are live. */
  lemma EqualWeights(w: nat, n: nat)
    requires w > 0 && n > 0
    ensures n * w > 0 && POINTS_PER_HASH * Rounds(w, n * w, n) == POINTS_PER_SERVER
  {
    assert n * w > 0;
    ShareIs(w, n * w, n);
    var x, y := w as real, n as real;
    assert (n * w) as real == y * x;
    assert x * (40.0 * y / (y * x)) == 40.0;
    assert Share(w, n * w, n) == 40.0;
    assert (40.0 + EPSILON).Floor == 40;
  }

  /** server d, and it alone, drops out between two rebuilds, and the others keep their points. */
  ghost predicate DropsOut(ss: seq<Server>, now: int, total: nat, n: nat, ss': seq<Server>, now': int, total': nat,
                           n': nat, d: nat)
    requires total > 0 && total' > 0
  {
    && |ss| == |ss'|
    && forall i :: 0 <= i < |ss| ==>
         && (Up(ss'[i], true, now') <==> Up(ss[i], true, now) && i != d)
         && (Up(ss'[i], true, now') ==> Rounds(ss'[i].weight, total', n') == Rounds(ss[i].weight, total, n))
  }

  lemma {:induction false} DropPoints(ss: seq<Server>, now: int, total: nat, n: nat,
                                      ss': seq<Server>, now': int, total': nat, n': nat, d: nat, f: (nat, nat) -> nat)
    requires total > 0 && total' > 0 && DropsOut(ss, now, total, n, ss', now', total', n', d)
    ensures Points(ss', true, now', total', n', f) == Without(Points(ss, true, now, total, n, f), d)
    decreases |ss|
  {
    if ss != [] {
      var i := |ss| - 1;
      DropPoints(ss[..i], now, total, n, ss'[..i], now', total', n', d, f);
      if Up(ss[i], true, now) {
        var b := Block(i, POINTS_PER_HASH * Rounds(ss[i].weight, total, n), f);
        WithoutConcat(Points(ss[..i], true, now, total, n, f), b, d);
        WithoutBlock(b, i, d);
        assert Points(ss, true, now, total, n, f) == Points(ss[..i], true, now, total, n, f) + b;
        var p' := Points(ss'[..i], true, now', total', n', f);
        assert Points(ss', true, now', total', n', f) == if i == d then p' else p' + b;
      } else {
        var p, p' := Points(ss[..i], true, now, total, n, f), Points(ss'[..i], true, now', total', n', f);
        assert p + [] == p && p' + [] == p';
      }
    }
  }

  lemma {:induction false} WithoutConcat(a: seq<Point>, b: seq<Point>, d: nat)
    ensures Without(a + b, d) == Without(a, d) + Without(b, d)
  {
    if a == [] {
      assert a + b == b;
    } else {
      assert (a + b)[1..] == a[1..] + b;
      WithoutConcat(a[1..], b, d);
    }
  }

  lemma {:induction false} WithoutBlock(b: seq<Point>, i: nat, d: nat)
    requires forall k :: 0 <= k < |b| ==> b[k].index == i
    ensures Without(b, d) == if i == d then [] else b
  {
    if b != [] { WithoutBlock(b[1..], i, d); }
  }
}
