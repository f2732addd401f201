/** The server pool as it is kept in memory: its servers, its continuum and the steps on them. */
module ServerPool {
  import opened Basics
  import opened Ring
  import opened Ejection

  const CONTINUUM_ADDITION: nat := 10

  // ---------- The continuum ----------

  /** ketama_dispatch: a binary search. */
  method KetamaDispatch(a: array<Point>, n: nat, h: nat) returns (index: nat)
    requires 0 < n <= a.Length && Sorted(a[..n])
    ensures index == Owner(a[..n], h)
  {
    var left, right := 0, n;
    while left < right
      invariant 0 <= left <= right <= n
      invariant (forall i :: 0 <= i < left ==> a[..n][i].value < h) && (right < n ==> a[..n][right].value >= h)
    {
      var middle := left + (right - left) / 2;
      assert a[..n][middle] == a[middle];
      if a[middle].value < h { left := middle + 1; } else { right := middle; }
    }
    FirstIs(a[..n], h, right);
    if right == n { right := 0; }
    index := a[right].index;
  }

  /** modula_dispatch. */
  method ModulaDispatch(a: array<Point>, n: nat, h: nat) returns (index: nat)
    requires 0 < n <= a.Length
    ensures index == Dispatch(Modula, a[..n], h)
  {
    index := a[h % n].index;
  }

  /** The point at k goes to its place among the points before it. */
  method InsertAt(a: array<Point>, k: nat)
    requires k < a.Length
    modifies a
    ensures a[..k + 1] == Insert(old(a[..k]), old(a[k]))
    ensures forall i :: k < i < a.Length ==> a[i] == old(a[i])
  {
    var x := a[k];
    ghost var s := a[..k];
    var j := Shift(a, k, x);
    a[j] := x;
    Inserted(a[..k + 1], s, x, j);
  }

  /** Room is made for x among the first k points. */
  method Shift(a: array<Point>, k: nat, x: Point) returns (j: nat)
    requires k < a.Length
    modifies a
    ensures j <= k && (j > 0 ==> old(a[j - 1]).value <= x.value)
    ensures forall i :: j <= i < k ==> a[i + 1] == old(a[i]) && old(a[i]).value > x.value
    ensures forall i :: 0 <= i < j || k < i < a.Length ==> a[i] == old(a[i])
  {
    j := k;
    while j > 0 && a[j - 1].value > x.value
      invariant 0 <= j <= k
      invariant forall i :: j <= i < k ==> a[i + 1] == old(a[i]) && old(a[i]).value > x.value
      invariant forall i :: 0 <= i < j || k < i < a.Length ==> a[i] == old(a[i])
    {
      a[j] := a[j - 1];
      j := j - 1;
    }
  }

  lemma Inserted(t: seq<Point>, s: seq<Point>, x: Point, j: nat)
    requires |t| == |s| + 1 && j <= |s| && t[j] == x && (j > 0 ==> s[j - 1].value <= x.value)
    requires forall i :: 0 <= i < j ==> t[i] == s[i]
    requires forall i :: j <= i < |s| ==> t[i + 1] == s[i] && s[i].value > x.value
    ensures t == Insert(s, x)
  {
    InsertPlace(s, x, j);
    var r := s[..j] + [x] + s[j..];
    forall i | 0 <= i < |t| ensures t[i] == r[i] {
      if i > j { assert t[i - 1 + 1] == s[i - 1]; }
    }
  }

  lemma {:induction false} InsertPlace(s: seq<Point>, x: Point, j: nat)
    requires j <= |s| && (j > 0 ==> s[j - 1].value <= x.value) && forall i :: j <= i < |s| ==> s[i].value > x.value
    ensures Insert(s, x) == s[..j] + [x] + s[j..]
    decreases |s|
  {
    if j < |s| { InsertPlace(s[..|s| - 1], x, j); }
  }

  /** The first n points of the continuum in order, as qsort leaves them. */
  method SortContinuum(a: array<Point>, n: nat)
    requires n <= a.Length
    modifies a
    ensures a[..n] == Sort(old(a[..n]))
  {
    ghost var s := a[..n];
    var k := 0;
    while k < n
      invariant 0 <= k <= n && a[..k] == Sort(s[..k])
      invariant forall i :: k <= i < a.Length ==> a[i] == old(a[i])
    {
      assert s[..k + 1][..k] == s[..k] && a[k] == s[k];
      InsertAt(a, k);
      k := k + 1;
    }
    assert s[..n] == s;
  }

  /** The points of server i are written from position c on. */
  method WriteBlock(a: array<Point>, c: nat, i: nat, rounds: nat, f: (nat, nat) -> nat)
    requires c + POINTS_PER_HASH * rounds <= a.Length
    modifies a
    ensures a[..c + POINTS_PER_HASH * rounds] == old(a[..c]) + Block(i, POINTS_PER_HASH * rounds, f)
  {
    var k := 0;
    while k < rounds
      invariant 0 <= k <= rounds
      invariant forall j :: 0 <= j < c ==> a[j] == old(a[j])
      invariant forall j :: 0 <= j < POINTS_PER_HASH * k ==> a[c + j] == Point(i, f(i, j))
    {
      var x := 0;
      while x < POINTS_PER_HASH
        invariant 0 <= x <= POINTS_PER_HASH
        invariant forall j :: 0 <= j < c ==> a[j] == old(a[j])
        invariant forall j :: 0 <= j < POINTS_PER_HASH * k + x ==> a[c + j] == Point(i, f(i, j))
      {
        a[c + POINTS_PER_HASH * k + x] := Point(i, f(i, POINTS_PER_HASH * k + x));
        x := x + 1;
      }
      k := k + 1;
    }
    Written(a[..c + POINTS_PER_HASH * rounds], old(a[..c]), Block(i, POINTS_PER_HASH * rounds, f));
  }

  lemma Written(t: seq<Point>, s: seq<Point>, b: seq<Point>)
    requires |t| == |s| + |b|
      && (forall j :: 0 <= j < |s| ==> t[j] == s[j]) && forall j :: 0 <= j < |b| ==> t[|s| + j] == b[j]
    ensures t == s + b
  {
    forall j | |s| <= j < |t| ensures t[j] == b[j - |s|] { assert t[|s| + (j - |s|)] == b[j - |s|]; }
  }

  method WriteSlots(a: array<Point>, c: nat, i: nat, w: nat)
    requires c + w <= a.Length
    modifies a
    ensures a[..c + w] == old(a[..c]) + seq(w, _ => Point(i, 0))
  {
    var k := 0;
    while k < w
      invariant 0 <= k <= w
      invariant forall j :: 0 <= j < c ==> a[j] == old(a[j])
      invariant forall j :: c <= j < c + k ==> a[j] == Point(i, 0)
    {
      a[c + k] := Point(i, 0);
      k := k + 1;
    }
    assert a[..c + w] == old(a[..c]) + seq(w, _ => Point(i, 0));
  }

  /** The continuum is filled with the points of the live servers. */
  method WritePoints(a: array<Point>, ss: seq<Server>, eject: bool, now: int, total: nat, n: nat, f: (nat, nat) -> nat)
    returns (c: nat)
    requires total > 0 && POINTS_PER_HASH * Quota(ss, eject, now, total, n) <= a.Length
    modifies a
    ensures c <= a.Length && a[..c] == Points(ss, eject, now, total, n, f)
  {
    c := 0;
    var i := 0;
    while i < |ss|
      invariant 0 <= i <= |ss| && c <= a.Length && a[..c] == Points(ss[..i], eject, now, total, n, f)
    {
      PointsStep(ss, eject, now, total, n, f, i);
      if !(eject && ss[i].nextRetry > now) {
        var rounds := Rounds(ss[i].weight, total, n);
        WriteBlock(a, c, i, rounds, f);
        c := c + POINTS_PER_HASH * rounds;
      }
      i := i + 1;
    }
    assert ss[..|ss|] == ss;
  }

  lemma {:induction false} PointsStep(ss: seq<Server>, eject: bool, now: int, total: nat, n: nat, f: (nat, nat) -> nat,
                                      i: nat)
    requires total > 0 && i < |ss|
    ensures
      var k := POINTS_PER_HASH * Rounds(ss[i].weight, total, n);
      var b := if Up(ss[i], eject, now) then Block(i, k, f) else [];
      && Points(ss[..i + 1], eject, now, total, n, f) == Points(ss[..i], eject, now, total, n, f) + b
      && |Points(ss[..i], eject, now, total, n, f)| + |b| <= POINTS_PER_HASH * Quota(ss, eject, now, total, n)
  {
    assert ss[..i + 1][..i] == ss[..i];
    QuotaPrefix(ss, eject, now, total, n, i + 1);
    PointsCount(ss[..i + 1], eject, now, total, n, f);
  }

  lemma {:induction false} QuotaPrefix(ss: seq<Server>, eject: bool, now: int, total: nat, n: nat, i: nat)
    requires total > 0 && i <= |ss|
    ensures Quota(ss[..i], eject, now, total, n) <= Quota(ss, eject, now, total, n)
    decreases |ss|
  {
    if i < |ss| {
      assert ss[..|ss| - 1][..i] == ss[..i];
      QuotaPrefix(ss[..|ss| - 1], eject, now, total, n, i);
    } else {
      assert ss[..i] == ss;
    }
  }

  method WriteAllSlots(a: array<Point>, ss: seq<Server>, eject: bool, now: int) returns (c: nat)
    requires Weight(ss, eject, now) <= a.Length
    modifies a
    ensures c <= a.Length && a[..c] == Slots(ss, eject, now)
  {
    c := 0;
    var i := 0;
    while i < |ss|
      invariant 0 <= i <= |ss| && c <= a.Length && a[..c] == Slots(ss[..i], eject, now)
    {
      WeightPrefix(ss, eject, now, i + 1);
      SlotsIndex(ss[..i], eject, now);
      assert ss[..i + 1][..i] == ss[..i];
      if !(eject && ss[i].nextRetry > now) {
        WriteSlots(a, c, i, ss[i].weight);
        c := c + ss[i].weight;
      }
      i := i + 1;
    }
    assert ss[..|ss|] == ss;
  }

  lemma {:induction false} WeightPrefix(ss: seq<Server>, eject: bool, now: int, i: nat)
    requires i <= |ss|
    ensures Weight(ss[..i], eject, now) <= Weight(ss, eject, now)
    decreases |ss|
  {
    if i < |ss| {
      assert ss[..|ss| - 1][..i] == ss[..i];
      WeightPrefix(ss[..|ss| - 1], eject, now, i);
    } else {
      assert ss[..i] == ss;
    }
  }

  /** Clearing the retry times of live servers changes nothing in what a rebuild computes. */
  lemma {:induction false} RefreshedSame(ss: seq<Server>, eject: bool, now: int, total: nat, n: nat,
                                         f: (nat, nat) -> nat)
    requires now >= 0 && total > 0
    ensures Points(Refreshed(ss, eject, now), eject, now, total, n, f) == Points(ss, eject, now, total, n, f)
    ensures Quota(Refreshed(ss, eject, now), eject, now, total, n) == Quota(ss, eject, now, total, n)
    ensures Slots(Refreshed(ss, eject, now), eject, now) == Slots(ss, eject, now)
    ensures Weight(Refreshed(ss, eject, now), eject, now) == Weight(ss, eject, now)
  {
    if ss != [] {
      var i := |ss| - 1;
      assert Refreshed(ss, eject, now)[..i] == Refreshed(ss[..i], eject, now);
      RefreshedSame(ss[..i], eject, now, total, n, f);
    }
  }

  // ---------- The pool ----------

  class ServerPool {
    const cfg: Config
    var servers: seq<Server>
    var nlive: nat
    var nextRebuild: int
    var continuum: array<Point>
    var nserverContinuum: nat
    var ncontinuum: nat

    function PerServer(): nat { if cfg.dist.Ketama? then POINTS_PER_SERVER else 1 }

    ghost predicate Valid()
      reads this, continuum
    {
      ncontinuum <= continuum.Length == nserverContinuum * PerServer()
    }

    ghost function View(): Pool
      requires Valid()
      reads this, continuum
    {
      Pool(servers, nlive, nextRebuild, continuum[..ncontinuum])
    }

    constructor (cfg: Config, weights: seq<nat>)
      ensures this.cfg == cfg && Valid() && fresh(continuum)
      ensures View() == Pool(seq(|weights|, i requires 0 <= i < |weights| => Server(weights[i], 0, 0)), 0, 0, [])
    {
      this.cfg := cfg;
      servers := seq(|weights|, i requires 0 <= i < |weights| => Server(weights[i], 0, 0));
      nlive, nextRebuild, nserverContinuum, ncontinuum := 0, 0, 0, 0;
      continuum := new Point[0];
    }

    /** Live servers and their total weight are counted, and the time of the next rebuild is set. */
    method CountLive(now: int) returns (total: nat)
      requires now >= 0
      modifies this`servers, this`nlive, this`nextRebuild
      ensures servers == Refreshed(old(servers), cfg.eject, now) && nlive == Alive(old(servers), cfg.eject, now)
      ensures nextRebuild == Earliest(old(servers), cfg.eject, now) && total == Weight(old(servers), cfg.eject, now)
    {
      ghost var ss := servers;
      var count, i := 0, 0;
      total, nextRebuild := 0, 0;
      while i < |servers|
        invariant 0 <= i <= |ss| && |servers| == |ss|
        invariant forall j :: 0 <= j < |ss| ==> servers[j] == if j < i then Cleared(ss[j], cfg.eject, now) else ss[j]
        invariant count == Alive(ss[..i], cfg.eject, now) && total == Weight(ss[..i], cfg.eject, now)
        invariant nextRebuild == Earliest(ss[..i], cfg.eject, now)
      {
        assert ss[..i + 1][..i] == ss[..i] && servers[i] == ss[i];
        if cfg.eject {
          if servers[i].nextRetry <= now {
            servers := servers[i := servers[i].(nextRetry := 0)];
            count := count + 1;
          } else if nextRebuild == 0 || servers[i].nextRetry < nextRebuild {
            nextRebuild := servers[i].nextRetry;
          }
        } else {
          count := count + 1;
        }
        if !cfg.eject || servers[i].nextRetry <= now { total := total + servers[i].weight; }
        i := i + 1;
      }
      assert ss[..i] == ss;
      nlive := count;
    }

    /** The continuum grows if `need` servers, or slots, do not fit. */
    method Grow(need: nat)
      requires Valid()
      modifies this`continuum, this`nserverContinuum
      ensures continuum == old(continuum) || fresh(continuum)
      ensures continuum.Length == nserverContinuum * PerServer() && need <= nserverContinuum
      ensures old(continuum).Length <= continuum.Length
    {
      if need > nserverContinuum {
        nserverContinuum := need + CONTINUUM_ADDITION;
        assert old(nserverContinuum) * PerServer() <= nserverContinuum * PerServer();
        continuum := new Point[nserverContinuum * PerServer()](_ => Point(0, 0));
      }
    }

    /** ketama_update and modula_update. */
    method Rebuild(now: int)
      requires Valid() && Fine(servers) && now >= 0
      modifies this, continuum
      ensures Valid() && (continuum == old(continuum) || fresh(continuum))
      ensures View() == Rebuilt(cfg, old(View()), now)
    {
      ghost var ss := servers;
      AliveWeighs(ss, cfg.eject, now);
      var total := CountLive(now);
      if nlive > 0 {
        match cfg.dist {
          case Ketama => KetamaFill(total, now, ss);
          case Modula => ModulaFill(total, now, ss);
        }
      }
    }

    method KetamaFill(total: nat, now: int, ghost ss: seq<Server>)
      requires Valid() && cfg.dist.Ketama? && now >= 0 && |ss| < MAX_SERVERS && servers == Refreshed(ss, cfg.eject, now)
      requires nlive == Alive(ss, cfg.eject, now) && 0 < total == Weight(ss, cfg.eject, now)
      modifies this`continuum, this`nserverContinuum, this`ncontinuum, continuum
      ensures Valid() && (continuum == old(continuum) || fresh(continuum))
      ensures continuum[..ncontinuum] == RingOf(cfg, ss, now)
    {
      Grow(nlive);
      RefreshedSame(ss, cfg.eject, now, total, nlive, cfg.point);
      PointsFit(ss, cfg.eject, now, cfg.point);
      PointsCount(ss, cfg.eject, now, total, nlive, cfg.point);
      var c := WritePoints(continuum, servers, cfg.eject, now, total, nlive, cfg.point);
      ncontinuum := c;
      SortContinuum(continuum, c);
    }

    method ModulaFill(total: nat, now: int, ghost ss: seq<Server>)
      requires Valid() && cfg.dist.Modula? && now >= 0 && servers == Refreshed(ss, cfg.eject, now)
      requires 0 < total == Weight(ss, cfg.eject, now)
      modifies this`continuum, this`nserverContinuum, this`ncontinuum, continuum
      ensures Valid() && (continuum == old(continuum) || fresh(continuum))
      ensures continuum[..ncontinuum] == RingOf(cfg, ss, now)
    {
      Grow(total);
      RefreshedSame(ss, cfg.eject, now, total, nlive, cfg.point);
      var c := WriteAllSlots(continuum, servers, cfg.eject, now);
      ncontinuum := c;
    }

    /** server_failure. */
    method ServerFailure(i: nat, now: int, now': int)
      requires Valid() && Fine(servers) && i < |servers| && 0 <= now <= now'
      modifies this, continuum
      ensures Valid() && (continuum == old(continuum) || fresh(continuum))
      ensures View() == Failure(cfg, old(View()), i, now, now')
    {
      if !cfg.eject { return; }
      servers := servers[i := servers[i].(failures := servers[i].failures + 1)];
      if servers[i].failures < cfg.limit { return; }
      servers := servers[i := servers[i].(failures := 0, nextRetry := now + cfg.retry)];
      FineUpdate(old(servers), i, servers[i]);
      assert servers == old(servers)[i := old(servers)[i].(failures := 0, nextRetry := now + cfg.retry)];
      Rebuild(now');
    }

    /** server_ok. */
    method ServerOk(i: nat)
      requires Valid() && i < |servers|
      modifies this`servers
      ensures Valid() && View() == Recovery(old(View()), i)
    {
      if servers[i].failures != 0 {
        servers := servers[i := servers[i].(failures := 0, nextRetry := 0)];
      }
    }

    /** server_pool_update. */
    method PoolUpdate(now: int, now': int) returns (ok: bool)
      requires Valid() && Fine(servers) && 0 <= now <= now'
      modifies this, continuum
      ensures Valid() && (continuum == old(continuum) || fresh(continuum))
      ensures (View(), ok) == Update(cfg, old(View()), now, now')
    {
      if !cfg.eject { return true; }
      if nextRebuild == 0 { return true; }
      if now <= nextRebuild { return nlive != 0; }
      Rebuild(now');
      ok := true;
    }

    /** server_pool_conn, up to the choice of the server. */
    method PoolServer(h: nat, now: int, now': int) returns (r: Option<nat>)
      requires Valid() && Sound(cfg, View()) && 0 <= now <= now'
      modifies this, continuum
      ensures Valid() && (View(), r) == Pick(cfg, old(View()), h, now, now')
    {
      ghost var p := View();
      UpdateSound(cfg, p, now, now');
      var ok := PoolUpdate(now, now');
      if !ok { return None; }
      var index;
      match cfg.dist {
        case Ketama => index := KetamaDispatch(continuum, ncontinuum, h);
        case Modula => index := ModulaDispatch(continuum, ncontinuum, h);
      }
      r := Some(index);
    }
  }
}
