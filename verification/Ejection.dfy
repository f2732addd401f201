/** Ejecting servers from a pool and taking them back: what every run of failures, recoveries and lookups
    keeps. */
module Ejection {
  import opened Basics
  import opened Ring

  datatype Dist = Ketama | Modula

  /** What is configured for a pool; `point` gives the values of the points of a server. */
  datatype Config = Config(dist: Dist, eject: bool, limit: nat, retry: nat, point: (nat, nat) -> nat)

  /** struct server_pool, as far as the distribution is concerned; `ring` is the part of the continuum in use. */
  datatype Pool = Pool(servers: seq<Server>, nlive: nat, nextRebuild: int, ring: seq<Point>)

  // ---------- Rebuilding ----------

  /** The retry time of a live server is cleared. */
  function Cleared(v: Server, eject: bool, now: int): Server {
    if eject && v.nextRetry <= now then v.(nextRetry := 0) else v
  }

  function Refreshed(ss: seq<Server>, eject: bool, now: int): seq<Server> {
    seq(|ss|, i requires 0 <= i < |ss| => Cleared(ss[i], eject, now))
  }

  /** The earliest retry time of a server that is still out, or 0. */
  function Earliest(ss: seq<Server>, eject: bool, now: int): int {
    if ss == [] then 0
    else
      var r, v := Earliest(ss[..|ss| - 1], eject, now), ss[|ss| - 1];
      if !Up(v, eject, now) && (r == 0 || v.nextRetry < r) then v.nextRetry else r
  }

  /** Every live server in as many slots as it weighs. */
  function Slots(ss: seq<Server>, eject: bool, now: int): seq<Point> {
    if ss == [] then []
    else
      var i := |ss| - 1;
      Slots(ss[..i], eject, now) + if Up(ss[i], eject, now) then seq(ss[i].weight, _ => Point(i, 0)) else []
  }

  function RingOf(cfg: Config, ss: seq<Server>, now: int): seq<Point>
    requires Weight(ss, cfg.eject, now) > 0
  {
    match cfg.dist
    case Ketama => Sort(Points(ss, cfg.eject, now, Weight(ss, cfg.eject, now), Alive(ss, cfg.eject, now), cfg.point))
    case Modula => Slots(ss, cfg.eject, now)
  }

  /** Servers weigh something, and there are not more of them than a counter holds. */
  ghost predicate Fine(ss: seq<Server>) {
    0 < |ss| < MAX_SERVERS && forall i :: 0 <= i < |ss| ==> ss[i].weight > 0 && ss[i].nextRetry >= 0
  }

  lemma {:induction false} AliveWeighs(ss: seq<Server>, eject: bool, now: int)
    requires forall i :: 0 <= i < |ss| ==> ss[i].weight > 0
    ensures Alive(ss, eject, now) > 0 <==> Weight(ss, eject, now) > 0
    ensures Alive(ss, eject, now) == 0 <==> forall i :: 0 <= i < |ss| ==> !Up(ss[i], eject, now)
  {
    if ss != [] { AliveWeighs(ss[..|ss| - 1], eject, now); }
  }

  /** ketama_update and modula_update. */
  ghost function Rebuilt(cfg: Config, p: Pool, now: int): Pool
    requires Fine(p.servers)
  {
    AliveWeighs(p.servers, cfg.eject, now);
    var n := Alive(p.servers, cfg.eject, now);
    Pool(Refreshed(p.servers, cfg.eject, now), n, Earliest(p.servers, cfg.eject, now),
         if n == 0 then p.ring else RingOf(cfg, p.servers, now))
  }

  lemma {:induction false} EarliestIs(ss: seq<Server>, eject: bool, now: int)
    requires now >= 0
    ensures var r := Earliest(ss, eject, now);
      && (r == 0 <==> forall i :: 0 <= i < |ss| ==> Up(ss[i], eject, now))
      && (r != 0 ==> r > now && exists i :: 0 <= i < |ss| && !Up(ss[i], eject, now) && ss[i].nextRetry == r)
      && (forall i :: 0 <= i < |ss| && !Up(ss[i], eject, now) ==> r <= ss[i].nextRetry)
  {
    if ss != [] {
      var t := ss[..|ss| - 1];
      EarliestIs(t, eject, now);
      if Earliest(t, eject, now) != 0 {
        var i :| 0 <= i < |t| && !Up(t[i], eject, now) && t[i].nextRetry == Earliest(t, eject, now);
        assert ss[i] == t[i];
      }
      assert forall i :: 0 <= i < |t| ==> ss[i] == t[i];
    }
  }

  lemma {:induction false} SlotsIndex(ss: seq<Server>, eject: bool, now: int)
    ensures |Slots(ss, eject, now)| == Weight(ss, eject, now)
    ensures forall x <- Slots(ss, eject, now) :: x.index < |ss| && Up(ss[x.index], eject, now)
  {
    if ss != [] { SlotsIndex(ss[..|ss| - 1], eject, now); }
  }

  /** How many slots of a ring belong to server i. */
  function SlotsOf(ring: seq<Point>, i: nat): nat {
    if ring == [] then 0 else SlotsOf(ring[..|ring| - 1], i) + if ring[|ring| - 1].index == i then 1 else 0
  }

  lemma {:induction false} SlotsConcat(a: seq<Point>, b: seq<Point>, i: nat)
    ensures SlotsOf(a + b, i) == SlotsOf(a, i) + SlotsOf(b, i)
    decreases |b|
  {
    if b == [] {
      assert a + b == a;
    } else {
      assert (a + b)[..|a + b| - 1] == a + b[..|b| - 1];
      SlotsConcat(a, b[..|b| - 1], i);
    }
  }

  lemma {:induction false} SlotsUniform(b: seq<Point>, k: nat, i: nat)
    requires forall j :: 0 <= j < |b| ==> b[j].index == k
    ensures SlotsOf(b, i) == if k == i then |b| else 0
    decreases |b|
  {
    if b != [] { SlotsUniform(b[..|b| - 1], k, i); }
  }

  /** modula_update gives every live server exactly as many slots as it weighs, and no other server any. */
  lemma {:induction false} ModulaShares(ss: seq<Server>, eject: bool, now: int, i: nat)
    ensures SlotsOf(Slots(ss, eject, now), i) == if i < |ss| && Up(ss[i], eject, now) then ss[i].weight else 0
    decreases |ss|
  {
    if ss != [] {
      var k := |ss| - 1;
      var b := if Up(ss[k], eject, now) then seq(ss[k].weight, _ => Point(k, 0)) else [];
      ModulaShares(ss[..k], eject, now, i);
      SlotsConcat(Slots(ss[..k], eject, now), b, i);
      SlotsUniform(b, k, i);
    }
  }

  /** Only live servers are on a new ring, and there is one. */
  lemma RingLive(cfg: Config, ss: seq<Server>, now: int)
    requires Weight(ss, cfg.eject, now) > 0
    ensures RingOf(cfg, ss, now) != []
    ensures forall x <- RingOf(cfg, ss, now) :: x.index < |ss| && Up(ss[x.index], cfg.eject, now)
  {
    match cfg.dist
    case Modula => SlotsIndex(ss, cfg.eject, now);
    case Ketama =>
      var total, n := Weight(ss, cfg.eject, now), Alive(ss, cfg.eject, now);
      var points := Points(ss, cfg.eject, now, total, n, cfg.point);
      PointsExist(ss, cfg.eject, now, cfg.point);
      PointsCount(ss, cfg.eject, now, total, n, cfg.point);
      SortIsRing(points);
      forall x | x in Sort(points) ensures x in points { assert x in multiset(Sort(points)); }
  }

  // ---------- Steps ----------

  /** server_failure, with its two readings of the clock. */
  ghost function Failure(cfg: Config, p: Pool, i: nat, now: int, now': int): Pool
    requires Fine(p.servers) && i < |p.servers| && 0 <= now <= now'
  {
    var v := p.servers[i];
    if !cfg.eject then p
    else if v.failures + 1 < cfg.limit then p.(servers := p.servers[i := v.(failures := v.failures + 1)])
    else
      var ss := p.servers[i := v.(failures := 0, nextRetry := now + cfg.retry)];
      Rebuilt(cfg, p.(servers := ss), now')
  }

  /** server_ok. */
  function Recovery(p: Pool, i: nat): Pool
    requires i < |p.servers|
  {
    var v := p.servers[i];
    if v.failures == 0 then p else p.(servers := p.servers[i := v.(failures := 0, nextRetry := 0)])
  }

  /** server_pool_update, with its two readings of the clock: the pool, and whether it can be used. */
  ghost function Update(cfg: Config, p: Pool, now: int, now': int): (Pool, bool)
    requires Fine(p.servers) && 0 <= now <= now'
  {
    if !cfg.eject || p.nextRebuild == 0 then (p, true)
    else if now <= p.nextRebuild then (p, p.nlive != 0)
    else (Rebuilt(cfg, p, now'), true)
  }

  /** ketama_dispatch or modula_dispatch. */
  function Dispatch(dist: Dist, ring: seq<Point>, h: nat): nat
    requires ring != []
  {
    match dist
    case Ketama => Owner(ring, h)
    case Modula => ring[h % |ring|].index
  }

  // ---------- What every step keeps ----------

  ghost predicate Sound(cfg: Config, p: Pool) {
    && Fine(p.servers)
    && (!cfg.eject ==> p.nlive > 0 && forall i :: 0 <= i < |p.servers| ==> p.servers[i].nextRetry == 0)
    && (p.nlive == 0 ==> p.nextRebuild != 0)
    && (p.nlive > 0 ==> p.ring != [] && OnlyLive(p))
    && (p.nextRebuild != 0 ==> exists i :: 0 <= i < |p.servers| && p.servers[i].nextRetry <= p.nextRebuild)
    && (cfg.dist.Ketama? ==> Sorted(p.ring))
  }

  /** Every server on the ring is in service. */
  ghost predicate OnlyLive(p: Pool) {
    forall x <- p.ring :: x.index < |p.servers| && p.servers[x.index].nextRetry == 0
  }

  lemma FineUpdate(ss: seq<Server>, i: nat, v: Server)
    requires Fine(ss) && i < |ss| && v.weight > 0 && v.nextRetry >= 0
    ensures Fine(ss[i := v])
  {
  }

  lemma RefreshedFine(ss: seq<Server>, eject: bool, now: int)
    requires Fine(ss)
    ensures Fine(Refreshed(ss, eject, now))
  {
  }

  lemma RingSorted(cfg: Config, ss: seq<Server>, now: int)
    requires Weight(ss, cfg.eject, now) > 0 && cfg.dist.Ketama?
    ensures Sorted(RingOf(cfg, ss, now))
  {
    SortIsRing(Points(ss, cfg.eject, now, Weight(ss, cfg.eject, now), Alive(ss, cfg.eject, now), cfg.point));
  }

  lemma RebuiltSound(cfg: Config, p: Pool, now: int)
    requires Fine(p.servers) && now >= 0
    requires !cfg.eject ==> forall i :: 0 <= i < |p.servers| ==> p.servers[i].nextRetry == 0
    requires cfg.dist.Ketama? ==> Sorted(p.ring)
    ensures Sound(cfg, Rebuilt(cfg, p, now))
  {
    var ss := p.servers;
    var p' := Rebuilt(cfg, p, now);
    AliveWeighs(ss, cfg.eject, now);
    EarliestIs(ss, cfg.eject, now);
    RefreshedFine(ss, cfg.eject, now);
    if p'.nlive > 0 {
      RingLive(cfg, ss, now);
      if cfg.dist.Ketama? { RingSorted(cfg, ss, now); }
    }
    if p'.nextRebuild != 0 {
      var i :| 0 <= i < |ss| && !Up(ss[i], cfg.eject, now) && ss[i].nextRetry == p'.nextRebuild;
      assert p'.servers[i] == ss[i];
    }
  }

  /** A rebuild after the time set for it brings at least one server back. */
  lemma RebuildRevives(cfg: Config, p: Pool, now: int)
    requires Sound(cfg, p) && p.nextRebuild != 0 && now > p.nextRebuild
    ensures Rebuilt(cfg, p, now).nlive > 0
  {
    AliveWeighs(p.servers, cfg.eject, now);
  }

  lemma FailureSound(cfg: Config, p: Pool, i: nat, now: int, now': int)
    requires Sound(cfg, p) && i < |p.servers| && 0 <= now <= now'
    ensures Sound(cfg, Failure(cfg, p, i, now, now'))
  {
    var q := SoundFailure(cfg, p, i, now, now');
  }

  lemma SoundFailure(cfg: Config, p: Pool, i: nat, now: int, now': int) returns (q: Pool)
    requires Sound(cfg, p) && i < |p.servers| && 0 <= now <= now'
    ensures Sound(cfg, q) && q == Failure(cfg, p, i, now, now')
  {
    var v := p.servers[i];
    if !cfg.eject {
      q := p;
    } else if v.failures + 1 < cfg.limit {
      CountedSound(cfg, p, i);
      q := p.(servers := p.servers[i := v.(failures := v.failures + 1)]);
    } else {
      var u := v.(failures := 0, nextRetry := now + cfg.retry);
      FineUpdate(p.servers, i, u);
      RebuiltSound(cfg, p.(servers := p.servers[i := u]), now');
      q := Rebuilt(cfg, p.(servers := p.servers[i := u]), now');
    }
  }

  lemma CountedSound(cfg: Config, p: Pool, i: nat)
    requires Sound(cfg, p) && i < |p.servers|
    ensures var v := p.servers[i]; Sound(cfg, p.(servers := p.servers[i := v.(failures := v.failures + 1)]))
  {
    var v := p.servers[i].(failures := p.servers[i].failures + 1);
    FineUpdate(p.servers, i, v);
    SameRetry(cfg, p, p.servers[i := v]);
  }

  /** Retry times only fall. */
  lemma SameRetry(cfg: Config, p: Pool, ss: seq<Server>)
    requires Sound(cfg, p) && Fine(ss) && |ss| == |p.servers|
    requires forall i :: 0 <= i < |ss| ==> ss[i].nextRetry == p.servers[i].nextRetry || ss[i].nextRetry == 0
    ensures Sound(cfg, p.(servers := ss))
  {
    if p.nextRebuild != 0 {
      var i :| 0 <= i < |p.servers| && p.servers[i].nextRetry <= p.nextRebuild;
      assert ss[i].nextRetry <= p.nextRebuild;
    }
  }

  lemma RecoverySound(cfg: Config, p: Pool, i: nat)
    requires Sound(cfg, p) && i < |p.servers|
    ensures Sound(cfg, Recovery(p, i))
  {
    if p.servers[i].failures != 0 { SameRetry(cfg, p, Recovery(p, i).servers); }
  }

  lemma UpdateSound(cfg: Config, p: Pool, now: int, now': int)
    requires Sound(cfg, p) && 0 <= now <= now'
    ensures var r := Update(cfg, p, now, now'); Sound(cfg, r.0) && (r.1 <==> r.0.nlive > 0)
  {
    if cfg.eject && p.nextRebuild != 0 && now > p.nextRebuild {
      RebuiltSound(cfg, p, now');
      RebuildRevives(cfg, p, now');
    }
  }

  // ---------- Runs ----------

  datatype Event = Fail(i: nat, now: int, now': int) | Okay(i: nat) | Lookup(h: nat, now: int, now': int)

  /** server_pool_conn, as far as the server is picked. */
  ghost function Pick(cfg: Config, p: Pool, h: nat, now: int, now': int): (Pool, Option<nat>)
    requires Sound(cfg, p) && 0 <= now <= now'
  {
    UpdateSound(cfg, p, now, now');
    var r := Update(cfg, p, now, now');
    (r.0, if r.1 then Some(Dispatch(cfg.dist, r.0.ring, h)) else None)
  }

  ghost predicate Possible(p: Pool, e: Event) {
    (e.Lookup? || e.i < |p.servers|) && (e.Okay? || 0 <= e.now <= e.now')
  }

  ghost function Step(cfg: Config, p: Pool, e: Event): (p': Pool)
    requires Sound(cfg, p) && Possible(p, e)
    ensures Sound(cfg, p')
  {
    match e
    case Fail(i, now, now') => FailureSound(cfg, p, i, now, now'); Failure(cfg, p, i, now, now')
    case Okay(i) => RecoverySound(cfg, p, i); Recovery(p, i)
    case Lookup(h, now, now') => UpdateSound(cfg, p, now, now'); Pick(cfg, p, h, now, now').0
  }

  /** A new pool, built for the first time. */
  ghost function Start(cfg: Config, weights: seq<nat>, now: int): (p: Pool)
    requires 0 < |weights| < MAX_SERVERS && (forall i :: 0 <= i < |weights| ==> weights[i] > 0) && now >= 0
    ensures Sound(cfg, p) && p.nlive == |weights|
  {
    var ss := seq(|weights|, i requires 0 <= i < |weights| => Server(weights[i], 0, 0));
    var p := Pool(ss, 0, 0, []);
    RebuiltSound(cfg, p, now);
    AllAlive(ss, cfg.eject, now);
    Rebuilt(cfg, p, now)
  }

  lemma {:induction false} AllAlive(ss: seq<Server>, eject: bool, now: int)
    requires forall i :: 0 <= i < |ss| ==> Up(ss[i], eject, now)
    ensures Alive(ss, eject, now) == |ss|
  {
    if ss != [] { AllAlive(ss[..|ss| - 1], eject, now); }
  }

  /** The pool after a sequence of events, as long as each is possible. */
  ghost function Run(cfg: Config, p: Pool, es: seq<Event>): (p': Pool)
    requires Sound(cfg, p)
    ensures Sound(cfg, p')
    decreases |es|
  {
    if es == [] || !Possible(p, es[0]) then p else Run(cfg, Step(cfg, p, es[0]), es[1..])
  }

  /** After every run, a lookup either picks a server that is not ejected, or fails; and it fails exactly
      when no server was live at the last rebuild and the time for the next one has not passed. */
  lemma EjectionSafety(cfg: Config, weights: seq<nat>, t0: int, es: seq<Event>, h: nat, now: int, now': int)
    requires 0 < |weights| < MAX_SERVERS && (forall i :: 0 <= i < |weights| ==> weights[i] > 0) && t0 >= 0
    requires 0 <= now <= now'
    ensures var p := Run(cfg, Start(cfg, weights, t0), es);
      var r := Pick(cfg, p, h, now, now');
      && (r.1.Some? ==> r.1.value < |r.0.servers| && r.0.servers[r.1.value].nextRetry == 0)
      && (r.1.None? <==> p.nlive == 0 && now <= p.nextRebuild)
  {
    var p := Run(cfg, Start(cfg, weights, t0), es);
    UpdateSound(cfg, p, now, now');
    var r := Update(cfg, p, now, now');
    if r.1 {
      FirstAt(r.0.ring, h);
      assert r.0.ring[h % |r.0.ring|] in r.0.ring;
    }
  }

  // ---------- What an ejection moves ----------

  lemma {:induction false} EvenWeight(ss: seq<Server>, eject: bool, now: int, w: nat)
    requires forall i :: 0 <= i < |ss| ==> ss[i].weight == w
    ensures Weight(ss, eject, now) == Alive(ss, eject, now) * w
  {
    if ss != [] { EvenWeight(ss[..|ss| - 1], eject, now, w); }
  }

  /** In a ketama pool of equal weights whose points have distinct values, ejecting server d leaves every
      key where it is, except those that went to d. */
  lemma EjectionMovesOnlyItsKeys(cfg: Config, ss: seq<Server>, now: int, ss': seq<Server>, now': int, d: nat, w: nat,
                                 h: nat)
    requires cfg.dist.Ketama? && cfg.eject && w > 0 && |ss| == |ss'|
    requires forall i :: 0 <= i < |ss| ==> ss[i].weight == w && ss'[i].weight == w
    requires forall i :: 0 <= i < |ss| ==> (Up(ss'[i], true, now') <==> Up(ss[i], true, now) && i != d)
    requires Weight(ss, true, now) > 0 && Weight(ss', true, now') > 0
    requires DistinctValues(Points(ss, true, now, Weight(ss, true, now), Alive(ss, true, now), cfg.point))
    ensures var ring, ring' := RingOf(cfg, ss, now), RingOf(cfg, ss', now');
      ring != [] && ring' != [] && (Owner(ring, h) != d ==> Owner(ring', h) == Owner(ring, h))
  {
    var n, n' := Alive(ss, true, now), Alive(ss', true, now');
    var total, total' := Weight(ss, true, now), Weight(ss', true, now');
    EvenWeight(ss, true, now, w);
    EvenWeight(ss', true, now', w);
    WeightAlive(ss, true, now);
    WeightAlive(ss', true, now');
    EqualWeights(w, n);
    EqualWeights(w, n');
    DropPoints(ss, now, total, n, ss', now', total', n', d, cfg.point);
    var points := Points(ss, true, now, total, n, cfg.point);
    SortIsRing(points);
    SortIsRing(Without(points, d));
    RingLive(cfg, ss, now);
    RingLive(cfg, ss', now');
    if Owner(Sort(points), h) != d { MinimalDisruption(points, Sort(points), Sort(Without(points, d)), d, h); }
  }
}
