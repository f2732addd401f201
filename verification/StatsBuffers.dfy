/** The statistics functions as code: each does, when it is not interrupted, what its steps do. */
module StatsBuffers {
  import opened StatsThreads

  function Repeat(e: Event, n: nat): seq<Event> { seq(n, _ => e) }

  lemma RepeatMore(s: Stats, e: Event, n: nat)
    requires n > 0
    ensures Run(s, Repeat(e, n)) == Run(Step(s, e), Repeat(e, n - 1))
  {
    assert Repeat(e, n)[1..] == Repeat(e, n - 1) && Repeat(e, n)[0] == e;
  }

  // ---------- stats_aggregate ----------

  function Added(kinds: seq<Kind>, sum: seq<int>, shadow: seq<int>): seq<int>
    requires |kinds| == |sum| == |shadow|
  {
    seq(|sum|, k requires 0 <= k < |sum| => Combine(kinds[k], sum[k], shadow[k]))
  }

  function Aggregated(s: Stats): Stats
    requires |s.kinds| == |s.sum| == |s.shadow|
  {
    if !s.aggregate then s else s.(sum := Added(s.kinds, s.sum, s.shadow), aggregate := false)
  }

  /** stats_aggregate is the steps of the statistics thread, one after the other. */
  lemma AggregateIsRun(s: Stats)
    requires |s.kinds| == |s.sum| == |s.shadow| && s.agg.Asleep? && s.aggregate
    ensures Run(s, Repeat(Other, |s.kinds| + 2)) == Aggregated(s)
  {
    var n := |s.kinds|;
    RepeatMore(s, Other, n + 2);
    assert s.sum == Partly(s, 0);
    AddRest(s.(agg := Adding(0)), s, 0);
  }

  function Partly(s: Stats, i: nat): seq<int>
    requires |s.kinds| == |s.sum| == |s.shadow|
  {
    seq(|s.sum|, k requires 0 <= k < |s.sum| => if k < i then Combine(s.kinds[k], s.sum[k], s.shadow[k]) else s.sum[k])
  }

  lemma {:induction false} AddRest(s: Stats, s0: Stats, i: nat)
    requires |s0.kinds| == |s0.sum| == |s0.shadow| && i <= |s0.kinds|
    requires s == s0.(sum := Partly(s0, i), agg := Adding(i)) && s0.agg.Asleep? && s0.aggregate
    ensures Run(s, Repeat(Other, |s0.kinds| - i + 1)) == Aggregated(s0)
    decreases |s0.kinds| - i
  {
    var n := |s0.kinds|;
    RepeatMore(s, Other, n - i + 1);
    if i < n {
      assert OtherStep(s).sum == Partly(s0, i + 1);
      AddRest(OtherStep(s), s0, i + 1);
    } else {
      assert Partly(s0, n) == Added(s0.kinds, s0.sum, s0.shadow);
      assert Repeat(Other, 0) == [];
    }
  }

  // ---------- stats_swap ----------

  function Swapped(s: Stats): Stats {
    if s.aggregate || !s.updated then s
    else s.(current := seq(|s.shadow|, _ => 0), shadow := s.current, updated := false, aggregate := true)
  }

  /** stats_swap is the steps of the main thread from the start of a swap on. */
  lemma SwapIsRun(s: Stats)
    requires s.gen.Idle? && !s.aggregate && s.updated
    ensures Run(s, [Swap] + Repeat(Main, |s.shadow| + 4)) == Swapped(s)
  {
    var n := |s.shadow|;
    RunFrom(s, Swap, Repeat(Main, n + 4));
    var s1 := Step(s, Swap);
    RepeatMore(s1, Main, n + 4);
    var s2 := Step(s1, Main);
    RepeatMore(s2, Main, n + 3);
    var s3 := Step(s2, Main);
    assert s3.current == Reset(s.shadow, 0);
    ResetRest(s3, s, 0);
  }

  function Reset(a: seq<int>, i: nat): seq<int> { seq(|a|, k requires 0 <= k < |a| => if k < i then 0 else a[k]) }

  lemma {:induction false} ResetRest(s: Stats, s0: Stats, i: nat)
    requires i <= |s0.shadow| && s0.gen.Idle? && !s0.aggregate && s0.updated
    requires s == s0.(current := Reset(s0.shadow, i), shadow := s0.current, gen := Resetting(i))
    ensures Run(s, Repeat(Main, |s0.shadow| - i + 2)) == Swapped(s0)
    decreases |s0.shadow| - i
  {
    var n := |s0.shadow|;
    RepeatMore(s, Main, n - i + 2);
    if i < n {
      assert MainStep(s).current == Reset(s0.shadow, i + 1);
      ResetRest(MainStep(s), s0, i + 1);
    } else {
      assert Reset(s0.shadow, n) == seq(n, _ => 0);
      RepeatMore(MainStep(s), Main, 1);
      assert Repeat(Main, 0) == [];
    }
  }

  // ---------- The code ----------

  class Buffers {
    const kinds: seq<Kind>
    var current: array<int>
    var shadow: array<int>
    var sum: array<int>
    var updated: bool
    var aggregate: bool
    ghost var ledger: seq<int>

    ghost predicate Valid()
      reads this
    {
      && current.Length == |kinds| && shadow.Length == |kinds| && sum.Length == |kinds| && |ledger| == |kinds|
      && current != shadow && current != sum && shadow != sum
    }

    /** The buffers, between calls. */
    ghost function View(): Stats
      reads this, current, shadow, sum
    {
      Stats(kinds, current[..], shadow[..], sum[..], updated, aggregate, Idle, Asleep, ledger)
    }

    constructor (kinds: seq<Kind>)
      ensures this.kinds == kinds && Valid() && fresh(current) && fresh(shadow) && fresh(sum) && View() == Start(kinds)
    {
      this.kinds := kinds;
      current := new int[|kinds|](_ => 0);
      shadow := new int[|kinds|](_ => 0);
      sum := new int[|kinds|](_ => 0);
      updated, aggregate, ledger := false, false, seq(|kinds|, _ => 0);
    }

    /** _stats_pool_incr, _stats_pool_decr, _stats_pool_incr_by, _stats_pool_decr_by and _stats_pool_set_ts,
        and the same for servers. */
    method Add(k: nat, v: int)
      requires Valid() && k < |kinds|
      modifies this`updated, this`ledger, current
      ensures Valid() && View() == Step(Step(old(View()), Record(k, v)), Main)
    {
      updated := true;
      if kinds[k].Timestamp? { current[k] := v; } else { current[k] := current[k] + v; }
      ledger := ledger[k := Recorded(kinds[k], ledger[k], v)];
    }

    /** stats_aggregate and stats_aggregate_metric. */
    method Aggregate()
      requires Valid()
      modifies this`aggregate, sum
      ensures Valid() && View() == Aggregated(old(View()))
    {
      if !aggregate { return; }
      var i := 0;
      while i < sum.Length
        invariant 0 <= i <= sum.Length
        invariant forall k :: 0 <= k < sum.Length ==>
          sum[k] == if k < i then Combine(kinds[k], old(sum[k]), shadow[k]) else old(sum[k])
        invariant shadow[..] == old(shadow[..]) && current[..] == old(current[..])
      {
        match kinds[i] {
          case Counter => sum[i] := sum[i] + shadow[i];
          case Gauge => sum[i] := sum[i] + shadow[i];
          case Timestamp => if shadow[i] != 0 { sum[i] := shadow[i]; }
        }
        i := i + 1;
      }
      aggregate := false;
    }

    /** stats_swap, with array_swap and stats_pool_reset. */
    method Swap()
      requires Valid()
      modifies this`current, this`shadow, this`updated, this`aggregate, shadow
      ensures Valid() && View() == Swapped(old(View()))
    {
      if aggregate { return; }
      if !updated { return; }
      current, shadow := shadow, current;
      var i := 0;
      while i < current.Length
        invariant current == old(shadow) && shadow == old(current)
        invariant 0 <= i <= current.Length && forall k :: 0 <= k < i ==> current[k] == 0
        invariant shadow[..] == old(current[..]) && sum[..] == old(sum[..])
      {
        current[i] := 0;
        i := i + 1;
      }
      updated := false;
      aggregate := true;
    }
  }
}
