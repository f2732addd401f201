/** How many points a server gets, and when it is ejected and taken back, told from what happens to the pool. */
module EjectionRuns {
  import opened Basics
  import opened Ring
  import opened Ejection

  // ---------- The shares of a ketama ring ----------

  /** q is the whole part of 40 n w / total, up to EPSILON. */
  ghost predicate WholePart(q: nat, w: nat, total: nat, n: nat) {
    var exact := 40.0 * n as real * w as real + EPSILON * total as real;
    q as real * total as real <= exact < (q + 1) as real * total as real
  }

  lemma RoundsWhole(w: nat, total: nat, n: nat)
    requires total > 0
    ensures WholePart(Rounds(w, total, n), w, total, n)
  {
    ShareIs(w, total, n);
    var q, x, t := Rounds(w, total, n), Share(w, total, n) + EPSILON, total as real;
    assert q as real <= x < (q + 1) as real;
    Times(q as real, x, t);
    Below(x, (q + 1) as real, t);
    ShareTimes(w, total, n);
    assert x * t == Share(w, total, n) * t + EPSILON * t;
  }

  lemma ShareTimes(w: nat, total: nat, n: nat)
    requires total > 0
    ensures Share(w, total, n) * total as real == 40.0 * n as real * w as real
  {
    ShareIs(w, total, n);
    var a, t := 40.0 * n as real, total as real;
    assert a / t * t == a;
    assert w as real * (a / t) * t == w as real * (a / t * t);
  }

  lemma Times(a: real, b: real, t: real)
    requires a <= b && t > 0.0
    ensures a * t <= b * t
  {
  }

  lemma Below(a: real, b: real, t: real)
    requires a < b && t > 0.0
    ensures a * t < b * t
  {
  }

  lemma {:induction false} PointsShare(ss: seq<Server>, eject: bool, now: int, total: nat, n: nat, f: (nat, nat) -> nat,
                                      i: nat)
    requires total > 0
    ensures SlotsOf(Points(ss, eject, now, total, n, f), i) ==
      if i < |ss| && Up(ss[i], eject, now) then POINTS_PER_HASH * Rounds(ss[i].weight, total, n) else 0
    decreases |ss|
  {
    if ss != [] {
      var k := |ss| - 1;
      var b := if Up(ss[k], eject, now) then Block(k, POINTS_PER_HASH * Rounds(ss[k].weight, total, n), f) else [];
      PointsShare(ss[..k], eject, now, total, n, f, i);
      SlotsConcat(Points(ss[..k], eject, now, total, n, f), b, i);
      SlotsUniform(b, k, i);
    }
  }

  lemma {:induction false} InsertShare(s: seq<Point>, x: Point, i: nat)
    ensures SlotsOf(Insert(s, x), i) == SlotsOf(s, i) + if x.index == i then 1 else 0
    decreases |s|
  {
    if s == [] || s[|s| - 1].value <= x.value {
      assert (s + [x])[..|s|] == s;
    } else {
      var front, z := s[..|s| - 1], s[|s| - 1];
      InsertShare(front, x, i);
      assert (Insert(front, x) + [z])[..|Insert(front, x)|] == Insert(front, x);
    }
  }

  lemma {:induction false} SortShare(s: seq<Point>, i: nat)
    ensures SlotsOf(Sort(s), i) == SlotsOf(s, i)
    decreases |s|
  {
    if s != [] {
      SortShare(s[..|s| - 1], i);
      InsertShare(Sort(s[..|s| - 1]), s[|s| - 1], i);
    }
  }

  /** On a new ketama ring a live server of weight w has four times as many points as the whole part of
      40 n w / total says, for n live servers of that total weight; a server that is not live has none. */
  lemma KetamaShares(cfg: Config, ss: seq<Server>, now: int, i: nat)
    requires cfg.dist.Ketama? && Weight(ss, cfg.eject, now) > 0
    ensures var total, n := Weight(ss, cfg.eject, now), Alive(ss, cfg.eject, now);
      var k := SlotsOf(RingOf(cfg, ss, now), i);
      if i < |ss| && Up(ss[i], cfg.eject, now) then
        k % POINTS_PER_HASH == 0 && WholePart(k / POINTS_PER_HASH, ss[i].weight, total, n)
      else k == 0
  {
    var total, n := Weight(ss, cfg.eject, now), Alive(ss, cfg.eject, now);
    var points := Points(ss, cfg.eject, now, total, n, cfg.point);
    PointsShare(ss, cfg.eject, now, total, n, cfg.point, i);
    SortShare(points, i);
    if i < |ss| && Up(ss[i], cfg.eject, now) {
      var q := Rounds(ss[i].weight, total, n);
      RoundsWhole(ss[i].weight, total, n);
      Quarter(POINTS_PER_HASH * q, q);
    }
  }

  lemma Quarter(k: nat, q: nat)
    requires k == POINTS_PER_HASH * q
    ensures k % POINTS_PER_HASH == 0 && k / POINTS_PER_HASH == q
  {
  }

  // ---------- How often a server has failed ----------

  ghost predicate Proper(n: nat, es: seq<Event>) {
    forall k :: 0 <= k < |es| ==> (es[k].Lookup? || es[k].i < n) && (es[k].Okay? || 0 <= es[k].now <= es[k].now')
  }

  /** The failures of server i since it was last ejected, or last answered; the failure that makes `limit` of
      them ejects it. */
  function Streak(es: seq<Event>, i: nat, limit: nat): nat {
    if es == [] then 0
    else
      var k, e := Streak(es[..|es| - 1], i, limit), es[|es| - 1];
      if e == Okay(i) then 0
      else if e.Fail? && e.i == i then if k + 1 < limit then k + 1 else 0
      else k
  }

  lemma {:induction false} RunMore(cfg: Config, p: Pool, es: seq<Event>, e: Event)
    requires Sound(cfg, p) && Proper(|p.servers|, es + [e])
    ensures var q := Run(cfg, p, es);
      |q.servers| == |p.servers| && Possible(q, e) && Run(cfg, p, es + [e]) == Step(cfg, q, e)
    decreases |es|
  {
    var all := es + [e];
    if es == [] {
      assert all[1..] == [] && all[0] == e;
      assert Possible(p, e);
    } else {
      assert all[0] == es[0] && all[1..] == es[1..] + [e];
      assert Possible(p, es[0]);
      var q := Step(cfg, p, es[0]);
      StepCount(cfg, p, es[0]);
      forall k | 0 <= k < |es[1..] + [e]| ensures (es[1..] + [e])[k] == all[k + 1] {}
      RunMore(cfg, q, es[1..], e);
    }
  }

  lemma StepCount(cfg: Config, p: Pool, e: Event)
    requires Sound(cfg, p) && Possible(p, e)
    ensures |Step(cfg, p, e).servers| == |p.servers|
  {
  }

  /** One event changes the failures that are counted for server i as Streak says. */
  lemma StepFailures(cfg: Config, p: Pool, e: Event, i: nat)
    requires Sound(cfg, p) && Possible(p, e) && cfg.eject && i < |p.servers|
    ensures var q, k := Step(cfg, p, e), p.servers[i].failures;
      && |q.servers| == |p.servers|
      && q.servers[i].failures ==
           if e == Okay(i) then 0 else if e.Fail? && e.i == i then (if k + 1 < cfg.limit then k + 1 else 0) else k
  {
  }

  /** After any run, the failures counted for a server are those since it was last ejected or answered. */
  lemma {:induction false} FailuresCounted(cfg: Config, weights: seq<nat>, t0: int, es: seq<Event>, i: nat)
    requires 0 < |weights| < MAX_SERVERS && (forall j :: 0 <= j < |weights| ==> weights[j] > 0) && t0 >= 0
    requires cfg.eject && Proper(|weights|, es) && i < |weights|
    ensures var p := Run(cfg, Start(cfg, weights, t0), es);
      |p.servers| == |weights| && p.servers[i].failures == Streak(es, i, cfg.limit)
    decreases |es|
  {
    var p0 := Start(cfg, weights, t0);
    if es != [] {
      var was, e := es[..|es| - 1], es[|es| - 1];
      assert es == was + [e];
      FailuresCounted(cfg, weights, t0, was, i);
      RunMore(cfg, p0, was, e);
      StepFailures(cfg, Run(cfg, p0, was), e, i);
    }
  }

  // ---------- When a server is ejected, and for how long ----------

  /** Whether server i has a point or slot on the ring. */
  ghost predicate OnRing(p: Pool, i: nat) { exists x :: x in p.ring && x.index == i }

  /** A failure after any run: below the limit it changes neither the ring nor any retry time; the failure that
      reaches the limit sets the retry time to the first reading of the clock and the timeout, and takes the
      server off the ring, unless the second reading is that late already, or no server is left. */
  lemma EjectedExactly(cfg: Config, weights: seq<nat>, t0: int, es: seq<Event>, i: nat, now: int, now': int)
    requires 0 < |weights| < MAX_SERVERS && (forall j :: 0 <= j < |weights| ==> weights[j] > 0) && t0 >= 0
    requires cfg.eject && Proper(|weights|, es) && i < |weights| && 0 <= now <= now'
    ensures var p := Run(cfg, Start(cfg, weights, t0), es);
      && Possible(p, Fail(i, now, now'))
      && var q, retry := Step(cfg, p, Fail(i, now, now')), now + cfg.retry;
      && |q.servers| == |p.servers| == |weights|
      && if Streak(es, i, cfg.limit) + 1 < cfg.limit then
           && q.ring == p.ring && q.nlive == p.nlive && q.nextRebuild == p.nextRebuild
           && forall j :: 0 <= j < |weights| ==> q.servers[j].nextRetry == p.servers[j].nextRetry
         else
           && q.servers[i].nextRetry == (if retry <= now' then 0 else retry)
           && (retry > now' && q.nlive > 0 ==> !OnRing(q, i))
  {
    var p := Run(cfg, Start(cfg, weights, t0), es);
    FailuresCounted(cfg, weights, t0, es, i);
    FailureEffect(cfg, p, i, now, now');
  }

  lemma FailureEffect(cfg: Config, p: Pool, i: nat, now: int, now': int)
    requires Sound(cfg, p) && cfg.eject && i < |p.servers| && 0 <= now <= now'
    ensures var q, retry := Step(cfg, p, Fail(i, now, now')), now + cfg.retry;
      && |q.servers| == |p.servers|
      && if p.servers[i].failures + 1 < cfg.limit then
           && q.ring == p.ring && q.nlive == p.nlive && q.nextRebuild == p.nextRebuild
           && forall j :: 0 <= j < |p.servers| ==> q.servers[j].nextRetry == p.servers[j].nextRetry
         else
           && q.servers[i].nextRetry == (if retry <= now' then 0 else retry)
           && (retry > now' && q.nlive > 0 ==> !OnRing(q, i))
  {
    var q := Step(cfg, p, Fail(i, now, now'));
    if now + cfg.retry > now' && q.nlive > 0 && p.servers[i].failures + 1 >= cfg.limit {
      assert q.servers[i].nextRetry != 0;
      forall x | x in q.ring ensures x.index != i {}
    }
  }

  lemma {:induction false} OnRingCounts(ring: seq<Point>, i: nat)
    ensures (exists x :: x in ring && x.index == i) <==> SlotsOf(ring, i) > 0
    decreases |ring|
  {
    if ring != [] {
      var front, z := ring[..|ring| - 1], ring[|ring| - 1];
      OnRingCounts(front, i);
      assert ring == front + [z];
      if z.index == i { assert z in ring; }
      if exists x :: x in front && x.index == i {
        var x :| x in front && x.index == i;
        assert x in ring;
      }
    }
  }

  /** A share of 40 n w / total is one or more, up to EPSILON. */
  ghost predicate OneOrMore(w: nat, total: nat, n: nat) {
    40.0 * n as real * w as real + EPSILON * total as real >= total as real
  }

  /** With ketama, a server's share of the ring is a point or more. */
  ghost predicate HasShare(cfg: Config, ss: seq<Server>, now: int, i: nat)
    requires i < |ss|
  {
    cfg.dist.Ketama? ==> OneOrMore(ss[i].weight, Weight(ss, cfg.eject, now), Alive(ss, cfg.eject, now))
  }

  /** A rebuild that finds a live server puts server i on the ring exactly if its retry time has come and, with
      ketama, its share is a point or more. */
  lemma RebuiltOnRing(cfg: Config, p: Pool, now: int, i: nat)
    requires Fine(p.servers) && Weight(p.servers, cfg.eject, now) > 0 && i < |p.servers|
    ensures OnRing(Rebuilt(cfg, p, now), i) <==>
      Up(p.servers[i], cfg.eject, now) && HasShare(cfg, p.servers, now, i)
  {
    AliveWeighs(p.servers, cfg.eject, now);
    OnRingCounts(RingOf(cfg, p.servers, now), i);
    match cfg.dist
    case Modula => ModulaShares(p.servers, cfg.eject, now, i);
    case Ketama => KetamaOnRing(cfg, p.servers, now, i);
  }

  lemma KetamaOnRing(cfg: Config, ss: seq<Server>, now: int, i: nat)
    requires cfg.dist.Ketama? && Weight(ss, cfg.eject, now) > 0 && i < |ss|
    ensures SlotsOf(RingOf(cfg, ss, now), i) > 0 <==> Up(ss[i], cfg.eject, now) && HasShare(cfg, ss, now, i)
  {
    var k, w := SlotsOf(RingOf(cfg, ss, now), i), ss[i].weight;
    KetamaShares(cfg, ss, now, i);
    if Up(ss[i], cfg.eject, now) { ShareCounts(k, w, Weight(ss, cfg.eject, now), Alive(ss, cfg.eject, now)); }
  }

  lemma ShareCounts(k: nat, w: nat, total: nat, n: nat)
    requires total > 0 && k % POINTS_PER_HASH == 0 && WholePart(k / POINTS_PER_HASH, w, total, n)
    ensures k > 0 <==> OneOrMore(w, total, n)
  {
    var q := k / POINTS_PER_HASH;
    assert k == POINTS_PER_HASH * q;
    if q > 0 { Times(1.0, q as real, total as real); }
  }

  /** When an event makes the pool rebuild its ring, and at which reading of the clock. */
  ghost function RebuiltAt(cfg: Config, p: Pool, e: Event): Option<int>
    requires Possible(p, e)
  {
    match e
    case Okay(_) => None
    case Lookup(_, now, now') => if cfg.eject && p.nextRebuild != 0 && now > p.nextRebuild then Some(now') else None
    case Fail(i, now, now') => if cfg.eject && p.servers[i].failures + 1 >= cfg.limit then Some(now') else None
  }

  /** A server that is out comes back exactly if the ring is rebuilt when its time has come: until then its retry
      time stays, whatever happens to the others. */
  lemma ComesBackExactly(cfg: Config, p: Pool, e: Event, i: nat)
    requires Sound(cfg, p) && Possible(p, e) && cfg.eject && i < |p.servers| && p.servers[i].nextRetry != 0
    requires e != Okay(i) && !(e.Fail? && e.i == i)
    ensures var q, t := Step(cfg, p, e), RebuiltAt(cfg, p, e);
      && |q.servers| == |p.servers|
      && q.servers[i].nextRetry == if t.Some? && t.value >= p.servers[i].nextRetry then 0 else p.servers[i].nextRetry
  {
  }

  ghost predicate LeavesAlone(es: seq<Event>, i: nat) {
    forall k :: 0 <= k < |es| ==> es[k] != Okay(i) && !(es[k].Fail? && es[k].i == i)
  }

  ghost predicate AllBefore(es: seq<Event>, t: int) { forall k :: 0 <= k < |es| ==> es[k].Okay? || es[k].now' < t }

  /** An ejected server stays out as long as the clock has not reached its retry time: no lookup picks it. */
  lemma {:induction false} StaysOut(cfg: Config, p: Pool, es: seq<Event>, i: nat, h: nat, now: int, now': int)
    requires Sound(cfg, p) && cfg.eject && i < |p.servers| && p.servers[i].nextRetry != 0
    requires Proper(|p.servers|, es) && LeavesAlone(es, i) && AllBefore(es, p.servers[i].nextRetry)
    requires 0 <= now <= now' < p.servers[i].nextRetry
    ensures var q := Run(cfg, p, es);
      && |q.servers| == |p.servers| && q.servers[i].nextRetry == p.servers[i].nextRetry
      && Pick(cfg, q, h, now, now').1 != Some(i)
    decreases |es|
  {
    if es == [] {
      ComesBackExactly(cfg, p, Lookup(h, now, now'), i);
      UpdateSound(cfg, p, now, now');
      var r := Update(cfg, p, now, now');
      if r.1 {
        FirstAt(r.0.ring, h);
        assert r.0.ring[h % |r.0.ring|] in r.0.ring;
      }
    } else {
      var e, rest := es[0], es[1..];
      assert Possible(p, e);
      ComesBackExactly(cfg, p, e, i);
      StaysOut(cfg, Step(cfg, p, e), rest, i, h, now, now');
    }
  }

  // ---------- The next rebuild is never too late ----------

  /** While a server is out, the next rebuild is set for its retry time or earlier. */
  ghost predicate Scheduled(p: Pool) {
    forall i :: 0 <= i < |p.servers| && p.servers[i].nextRetry != 0 ==> 0 != p.nextRebuild <= p.servers[i].nextRetry
  }

  lemma RebuiltScheduled(cfg: Config, p: Pool, now: int)
    requires Fine(p.servers) && now >= 0 && cfg.eject
    ensures Scheduled(Rebuilt(cfg, p, now))
  {
    EarliestIs(p.servers, cfg.eject, now);
  }

  lemma StepScheduled(cfg: Config, p: Pool, e: Event)
    requires Sound(cfg, p) && Possible(p, e) && cfg.eject && Scheduled(p)
    ensures Scheduled(Step(cfg, p, e))
  {
    match e
    case Okay(_) =>
    case Lookup(_, now, now') => if p.nextRebuild != 0 && now > p.nextRebuild { RebuiltScheduled(cfg, p, now'); }
    case Fail(i, now, now') =>
      var v := p.servers[i];
      if v.failures + 1 >= cfg.limit {
        var ss := p.servers[i := v.(failures := 0, nextRetry := now + cfg.retry)];
        FineUpdate(p.servers, i, v.(failures := 0, nextRetry := now + cfg.retry));
        RebuiltScheduled(cfg, p.(servers := ss), now');
      }
  }

  lemma {:induction false} RunScheduled(cfg: Config, p: Pool, es: seq<Event>)
    requires Sound(cfg, p) && cfg.eject && Scheduled(p)
    ensures Scheduled(Run(cfg, p, es))
    decreases |es|
  {
    if es != [] && Possible(p, es[0]) {
      StepScheduled(cfg, p, es[0]);
      RunScheduled(cfg, Step(cfg, p, es[0]), es[1..]);
    }
  }

  /** After any run, a lookup later than a server's retry time has it back in service. */
  lemma BackInTime(cfg: Config, weights: seq<nat>, t0: int, es: seq<Event>, i: nat, h: nat, now: int, now': int)
    requires 0 < |weights| < MAX_SERVERS && (forall j :: 0 <= j < |weights| ==> weights[j] > 0) && t0 >= 0
    requires cfg.eject && 0 <= now <= now'
    requires var p := Run(cfg, Start(cfg, weights, t0), es); i < |p.servers| && now > p.servers[i].nextRetry
    ensures var p := Run(cfg, Start(cfg, weights, t0), es);
      var q := Step(cfg, p, Lookup(h, now, now'));
      |q.servers| == |p.servers| && q.servers[i].nextRetry == 0
  {
    var p0 := Start(cfg, weights, t0);
    var ss := seq(|weights|, j requires 0 <= j < |weights| => Server(weights[j], 0, 0));
    RebuiltScheduled(cfg, Pool(ss, 0, 0, []), t0);
    RunScheduled(cfg, p0, es);
    var p := Run(cfg, p0, es);
    if p.servers[i].nextRetry != 0 { ComesBackExactly(cfg, p, Lookup(h, now, now'), i); }
  }
}
