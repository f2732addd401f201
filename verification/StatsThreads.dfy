/** The statistics buffers: the main thread counts in `current`, the statistics thread adds up `sum`, and
    two flags hand `shadow` from one to the other. Every access to shared memory is a step of its own. */
module StatsThreads {
  datatype Kind = Counter | Gauge | Timestamp

  /** Where the main thread is: idle; about to change metric k, in stats_pool_to_metric; in stats_swap
      after reading `aggregate`, after reading `updated`, after exchanging the buffers and resetting the
      first i metrics, after clearing `updated`. */
  datatype Generator = Idle | Recording(k: nat, v: int) | Seen | Go | Resetting(i: nat) | Cleared

  /** Where the statistics thread is: idle, or in stats_aggregate with the first i metrics added. */
  datatype Aggregator = Asleep | Adding(i: nat)

  /** `ledger` is what was recorded for each metric: the sum, or the last time stamp. */
  datatype Stats = Stats(
    kinds: seq<Kind>,
    current: seq<int>, shadow: seq<int>, sum: seq<int>,
    updated: bool, aggregate: bool,
    gen: Generator, agg: Aggregator,
    ledger: seq<int>)

  // ---------- Steps ----------

  /** A value added to a metric, or one that replaces it. */
  function Combine(kind: Kind, old_: int, v: int): int {
    if kind.Timestamp? then if v != 0 then v else old_ else old_ + v
  }

  /** What _stats_pool_incr and its siblings do to a metric. */
  function Recorded(kind: Kind, old_: int, v: int): int { if kind.Timestamp? then v else old_ + v }

  /** A step: the main thread starts to record v for metric k, or starts a swap, or goes on; the
      statistics thread goes on. */
  datatype Event = Record(k: nat, v: int) | Swap | Main | Other

  function Step(s: Stats, e: Event): Stats {
    match e
    case Record(k, v) => if s.gen.Idle? then s.(updated := true, gen := Recording(k, v)) else s
    case Swap => if s.gen.Idle? && !s.aggregate then s.(gen := Seen) else s
    case Main => MainStep(s)
    case Other => OtherStep(s)
  }

  function MainStep(s: Stats): Stats {
    match s.gen
    case Idle => s
    case Recording(k, v) =>
      if k < |s.current| && k < |s.kinds| && k < |s.ledger| then
        s.(current := s.current[k := Recorded(s.kinds[k], s.current[k], v)],
           ledger := s.ledger[k := Recorded(s.kinds[k], s.ledger[k], v)], gen := Idle)
      else s.(gen := Idle)
    case Seen => s.(gen := if s.updated then Go else Idle)
    case Go => s.(current := s.shadow, shadow := s.current, gen := Resetting(0))
    case Resetting(i) =>
      if i < |s.current| then s.(current := s.current[i := 0], gen := Resetting(i + 1))
      else s.(updated := false, gen := Cleared)
    case Cleared => s.(aggregate := true, gen := Idle)
  }

  function OtherStep(s: Stats): Stats {
    match s.agg
    case Asleep => if s.aggregate then s.(agg := Adding(0)) else s
    case Adding(i) =>
      if i < |s.shadow| && i < |s.sum| && i < |s.kinds| then
        s.(sum := s.sum[i := Combine(s.kinds[i], s.sum[i], s.shadow[i])], agg := Adding(i + 1))
      else s.(aggregate := false, agg := Asleep)
  }

  // ---------- What every step keeps ----------

  /** What metric k of `current` will be worth to the statistics thread. */
  function Fresh(s: Stats, k: nat): int
    requires k < |s.current|
  {
    if s.gen.Resetting? && k >= s.gen.i then 0 else s.current[k]
  }

  /** Whether `shadow` holds values of metric k that were not added yet. */
  predicate Owed(s: Stats, k: nat) {
    s.gen.Resetting? || s.gen.Cleared? || (s.aggregate && (s.agg.Asleep? || k >= s.agg.i))
  }

  function Pending(s: Stats, k: nat): int
    requires k < |s.shadow|
  {
    if Owed(s, k) then s.shadow[k] else 0
  }

  ghost predicate Sized(s: Stats) {
    |s.current| == |s.kinds| && |s.shadow| == |s.kinds| && |s.sum| == |s.kinds| && |s.ledger| == |s.kinds|
  }

  /** Nothing recorded for metric k is lost or counted twice. */
  ghost predicate Conserved(s: Stats, k: nat)
    requires Sized(s) && k < |s.kinds|
  {
    s.ledger[k] == Combine(s.kinds[k], Combine(s.kinds[k], s.sum[k], Pending(s, k)), Fresh(s, k))
  }

  ghost predicate Inv(s: Stats) {
    && Sized(s)
    && (forall k :: 0 <= k < |s.kinds| ==> Conserved(s, k))
    && (s.agg.Adding? ==> s.aggregate)
    && (s.gen.Seen? || s.gen.Go? || s.gen.Resetting? || s.gen.Cleared? ==> !s.aggregate)
    && (s.gen.Recording? || s.gen.Go? || s.gen.Resetting? ==> s.updated)
    && (!s.updated || s.gen.Resetting? ==> forall k :: 0 <= k < |s.kinds| ==> Fresh(s, k) == 0)
  }

  /** Time stamps are never zero. */
  ghost predicate Proper(s: Stats, e: Event) {
    e.Record? ==> e.k < |s.kinds| && (e.k < |s.kinds| && s.kinds[e.k].Timestamp? ==> e.v != 0)
  }

  ghost predicate Real(s: Stats) {
    s.gen.Recording? ==> s.gen.k < |s.kinds| && (s.kinds[s.gen.k].Timestamp? ==> s.gen.v != 0)
  }

  lemma MainKeeps(s: Stats)
    requires Inv(s) && Real(s)
    ensures Inv(MainStep(s)) && Real(MainStep(s))
  {
    var s' := MainStep(s);
    forall k | 0 <= k < |s.kinds| ensures Conserved(s', k) {
      assert Conserved(s, k);
      if s.gen.Go? { assert Fresh(s, k) == s.current[k]; }
    }
    if !s'.updated || s'.gen.Resetting? {
      forall k | 0 <= k < |s.kinds| ensures Fresh(s', k) == 0 {
        if !s.updated || s.gen.Resetting? { assert Fresh(s, k) == 0; }
      }
    }
  }

  lemma OtherKeeps(s: Stats)
    requires Inv(s) && Real(s)
    ensures Inv(OtherStep(s)) && Real(OtherStep(s))
  {
    var s' := OtherStep(s);
    forall k | 0 <= k < |s.kinds| ensures Conserved(s', k) { assert Conserved(s, k); }
    assert forall k :: 0 <= k < |s.kinds| ==> Fresh(s', k) == Fresh(s, k);
  }

  lemma StartKeeps(s: Stats, e: Event)
    requires Inv(s) && Real(s) && (e.Record? || e.Swap?) && Proper(s, e)
    ensures Inv(Step(s, e)) && Real(Step(s, e))
  {
    var s' := Step(s, e);
    forall k | 0 <= k < |s.kinds| ensures Conserved(s', k) { assert Conserved(s, k); }
    assert forall k :: 0 <= k < |s.kinds| ==> Fresh(s', k) == Fresh(s, k);
  }

  lemma StepKeeps(s: Stats, e: Event)
    requires Inv(s) && Real(s) && Proper(s, e)
    ensures Inv(Step(s, e)) && Real(Step(s, e)) && Step(s, e).kinds == s.kinds
  {
    match e
    case Main => MainKeeps(s);
    case Other => OtherKeeps(s);
    case Record(_, _) => StartKeeps(s, e);
    case Swap => StartKeeps(s, e);
  }

  // ---------- Runs ----------

  function Start(kinds: seq<Kind>): Stats {
    var zero := seq(|kinds|, _ => 0);
    Stats(kinds, zero, zero, zero, false, false, Idle, Asleep, zero)
  }

  /** Any interleaving of the two threads. */
  function Run(s: Stats, es: seq<Event>): Stats
    decreases |es|
  {
    if es == [] then s else Run(Step(s, es[0]), es[1..])
  }

  ghost predicate AllProper(kinds: seq<Kind>, es: seq<Event>) {
    forall i :: 0 <= i < |es| && es[i].Record? ==>
      es[i].k < |kinds| && (kinds[es[i].k].Timestamp? ==> es[i].v != 0)
  }

  lemma {:induction false} RunKeeps(s: Stats, es: seq<Event>)
    requires Inv(s) && Real(s) && AllProper(s.kinds, es)
    ensures Inv(Run(s, es)) && Real(Run(s, es)) && Run(s, es).kinds == s.kinds
    decreases |es|
  {
    if es != [] {
      StepKeeps(s, es[0]);
      RunKeeps(Step(s, es[0]), es[1..]);
    }
  }

  // ---------- What was recorded ----------

  /** The values that were given to be recorded, with their metrics: those that came while the main thread
      was idle. */
  function Given(s: Stats, es: seq<Event>): seq<(nat, int)>
    decreases |es|
  {
    if es == [] then []
    else GivenBy(s, es[0]) + Given(Step(s, es[0]), es[1..])
  }

  function GivenBy(s: Stats, e: Event): seq<(nat, int)> {
    if e.Record? && s.gen.Idle? then [(e.k, e.v)] else []
  }

  /** The last one has not taken effect while the main thread is about to record it. */
  function Effective(rs: seq<(nat, int)>, gen: Generator): seq<(nat, int)> {
    if gen.Recording? && rs != [] then rs[..|rs| - 1] else rs
  }

  function Total(rs: seq<(nat, int)>, k: nat): int {
    if rs == [] then 0
    else Total(rs[..|rs| - 1], k) + if rs[|rs| - 1].0 == k then rs[|rs| - 1].1 else 0
  }

  function Newest(rs: seq<(nat, int)>, k: nat): int {
    if rs == [] then 0
    else if rs[|rs| - 1].0 == k then rs[|rs| - 1].1
    else Newest(rs[..|rs| - 1], k)
  }

  /** What the values recorded for metric k amount to: their sum, or the last time stamp. */
  function Amount(kind: Kind, rs: seq<(nat, int)>, k: nat): int {
    if kind.Timestamp? then Newest(rs, k) else Total(rs, k)
  }

  /** The ledger shows the values given so far. */
  ghost predicate Booked(s: Stats, rs: seq<(nat, int)>) {
    && Sized(s)
    && (s.gen.Recording? ==> rs != [] && rs[|rs| - 1] == (s.gen.k, s.gen.v))
    && (forall k :: 0 <= k < |s.kinds| ==> s.ledger[k] == Amount(s.kinds[k], Effective(rs, s.gen), k))
  }

  lemma BookedStep(s: Stats, e: Event, rs: seq<(nat, int)>)
    requires Inv(s) && Real(s) && Proper(s, e) && Booked(s, rs) && Inv(Step(s, e)) && Step(s, e).kinds == s.kinds
    ensures Booked(Step(s, e), rs + GivenBy(s, e))
  {
    var s', rs' := Step(s, e), rs + GivenBy(s, e);
    if e.Record? && s.gen.Idle? {
      assert rs'[..|rs'| - 1] == rs;
    } else {
      assert rs' == rs;
    }
    forall k | 0 <= k < |s'.kinds| ensures s'.ledger[k] == Amount(s'.kinds[k], Effective(rs', s'.gen), k) {
      assert s.ledger[k] == Amount(s.kinds[k], Effective(rs, s.gen), k);
    }
  }

  lemma {:induction false} RunBooked(s: Stats, es: seq<Event>, rs: seq<(nat, int)>)
    requires Inv(s) && Real(s) && AllProper(s.kinds, es) && Booked(s, rs)
    ensures Booked(Run(s, es), rs + Given(s, es))
    decreases |es|
  {
    if es == [] {
      assert rs + [] == rs;
    } else {
      var now := GivenBy(s, es[0]);
      StepKeeps(s, es[0]);
      BookedStep(s, es[0], rs);
      RunBooked(Step(s, es[0]), es[1..], rs + now);
      assert rs + (now + Given(Step(s, es[0]), es[1..])) == rs + now + Given(Step(s, es[0]), es[1..]);
    }
  }

  /** What has been recorded for metric k by a run, from the events. */
  function RecordedBy(kinds: seq<Kind>, es: seq<Event>, k: nat): int
    requires k < |kinds|
  {
    Amount(kinds[k], Effective(Given(Start(kinds), es), Run(Start(kinds), es).gen), k)
  }

  lemma LedgerShows(kinds: seq<Kind>, es: seq<Event>, k: nat)
    requires AllProper(kinds, es) && k < |kinds|
    ensures var s := Run(Start(kinds), es); Sized(s) && s.kinds == kinds && s.ledger[k] == RecordedBy(kinds, es, k)
  {
    RunKeeps(Start(kinds), es);
    assert Booked(Start(kinds), []);
    RunBooked(Start(kinds), es, []);
    assert [] + Given(Start(kinds), es) == Given(Start(kinds), es);
  }

  /** Under every interleaving, what is in `sum`, what is still to be added from `shadow` and what is in
      `current` make up what was recorded: for a counter they add up to the values given, for a time stamp the
      newest of them is the last one given. */
  lemma Conservation(kinds: seq<Kind>, es: seq<Event>, k: nat)
    requires AllProper(kinds, es) && k < |kinds|
    ensures var s, total := Run(Start(kinds), es), RecordedBy(kinds, es, k);
      && Sized(s) && s.kinds == kinds
      && (!kinds[k].Timestamp? ==> s.sum[k] + Pending(s, k) + Fresh(s, k) == total)
      && (kinds[k].Timestamp? ==>
            total == if Fresh(s, k) != 0 then Fresh(s, k) else if Pending(s, k) != 0 then Pending(s, k) else s.sum[k])
  {
    RunKeeps(Start(kinds), es);
    LedgerShows(kinds, es, k);
    assert Conserved(Run(Start(kinds), es), k);
  }

  /** With both flags clear, `sum` is exact: for every metric unless the main thread stands between
      clearing `updated` and setting `aggregate`, and then exactly for the counters whose shadow is zero
      and the time stamps whose shadow is zero or says the same. */
  lemma ExactWhenIdle(kinds: seq<Kind>, es: seq<Event>, k: nat)
    requires AllProper(kinds, es) && k < |kinds|
    requires var s := Run(Start(kinds), es); !s.updated && !s.aggregate
    ensures var s, total := Run(Start(kinds), es), RecordedBy(kinds, es, k);
      && Sized(s) && s.kinds == kinds
      && (!s.gen.Cleared? ==> s.sum[k] == total)
      && (s.gen.Cleared? && !kinds[k].Timestamp? ==> (s.sum[k] == total <==> s.shadow[k] == 0))
      && (s.gen.Cleared? && kinds[k].Timestamp? ==>
            (s.sum[k] == total <==> s.shadow[k] == 0 || s.shadow[k] == s.sum[k]))
  {
    RunKeeps(Start(kinds), es);
    LedgerShows(kinds, es, k);
    var s := Run(Start(kinds), es);
    assert Conserved(s, k) && Fresh(s, k) == 0;
  }

  /** In that window the flags are both clear and the sum lacks what was recorded. */
  lemma StaleSum()
    ensures var s := Run(Start([Counter]), [Record(0, 1), Main, Swap, Main, Main, Main, Main]);
      !s.updated && !s.aggregate && s.gen.Cleared? && s.ledger == [1] && s.sum == [0]
  {
    var s0 := Start([Counter]);
    RunFrom(s0, Record(0, 1), [Main, Swap, Main, Main, Main, Main]);
    var s1 := Step(s0, Record(0, 1));
    RunFrom(s1, Main, [Swap, Main, Main, Main, Main]);
    var s2 := Step(s1, Main);
    assert s2.ledger == [1] && s2.current == [1] && s2.shadow == [0] && s2.sum == [0];
    RunFrom(s2, Swap, [Main, Main, Main, Main]);
    RunFrom(Step(s2, Swap), Main, [Main, Main, Main]);
    var s4 := Step(Step(s2, Swap), Main);
    RunFrom(s4, Main, [Main, Main]);
    var s5 := Step(s4, Main);
    RunFrom(s5, Main, [Main]);
    RunFrom(Step(s5, Main), Main, []);
    var s7 := Step(Step(s5, Main), Main);
    assert s7.gen.Cleared? && !s7.updated && s7.sum == [0];
  }

  lemma RunFrom(s: Stats, e: Event, es: seq<Event>)
    ensures Run(s, [e] + es) == Run(Step(s, e), es)
  {
    assert ([e] + es)[1..] == es;
  }
}
