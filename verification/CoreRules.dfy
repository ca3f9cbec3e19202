/** The four threshold functions of the domain crate (crates/core/src/lib.rs), and why evaluating
    them step by step gives the same warnings as evaluating them once. */
module CoreRules {
  import opened Domain

  /** Longest threshold first, none twice. */
  ghost predicate Descending(ts: seq<Threshold>) {
    forall i, j :: 0 <= i < j < |ts| ==> ts[i].Seconds() > ts[j].Seconds()
  }

  // ---- the loops -----------------------------------------------------------------------------

  method CreationPassedThresholds(duration: nat) returns (passed: set<Threshold>)
    ensures forall t: Threshold :: t in passed <==> duration < t.Seconds()
  {
    passed := {};
    for i := 0 to |ALL_THRESHOLDS|
      invariant forall t: Threshold :: t in passed <==> t in ALL_THRESHOLDS[..i] && duration < t.Seconds()
    {
      if duration < ALL_THRESHOLDS[i].Seconds() { passed := passed + {ALL_THRESHOLDS[i]}; }
    }
    AllThresholdsListed();
    assert ALL_THRESHOLDS[..|ALL_THRESHOLDS|] == ALL_THRESHOLDS;
  }

  method CreationDueThresholds(duration: nat) returns (due: seq<Threshold>)
    ensures due == CreationDue(duration)
    ensures |due| <= 1 && forall t: Threshold :: t in due <==> duration == t.Seconds()
  {
    due := [];
    for i := 0 to |ALL_THRESHOLDS|
      invariant due == SelectThresholds(ALL_THRESHOLDS[..i], duration, duration + 1, {})
    {
      SelectLast(ALL_THRESHOLDS[..i], ALL_THRESHOLDS[i], duration, duration + 1, {});
      assert ALL_THRESHOLDS[..i + 1] == ALL_THRESHOLDS[..i] + [ALL_THRESHOLDS[i]];
      if duration == ALL_THRESHOLDS[i].Seconds() { due := due + [ALL_THRESHOLDS[i]]; }
    }
    assert ALL_THRESHOLDS[..|ALL_THRESHOLDS|] == ALL_THRESHOLDS;
    AllThresholdsListed();
    DueAtMostOne(duration);
  }

  lemma DueAtMostOne(duration: nat)
    ensures |CreationDue(duration)| <= 1
  {
    AllDescend();
    SelectionDescends(ALL_THRESHOLDS, duration, duration + 1, {});
    if |CreationDue(duration)| > 1 { FirstTwoDiffer(CreationDue(duration)); }
  }

  method CrossedWarningThresholds(previous: int, current: int, emitted: set<Threshold>) returns (crossed: seq<Threshold>)
    ensures crossed == Crossed(previous, current, emitted) && Descending(crossed)
    ensures forall t: Threshold :: t in crossed <==> 0 < current <= t.Seconds() < previous && t !in emitted
  {
    AllThresholdsListed();
    AllDescend();
    if current <= 0 { return []; }
    crossed := [];
    for i := 0 to |ALL_THRESHOLDS|
      invariant crossed == SelectThresholds(ALL_THRESHOLDS[..i], current, previous, emitted)
    {
      var t := ALL_THRESHOLDS[i];
      SelectLast(ALL_THRESHOLDS[..i], t, current, previous, emitted);
      assert ALL_THRESHOLDS[..i + 1] == ALL_THRESHOLDS[..i] + [t];
      if previous > t.Seconds() && current <= t.Seconds() && t !in emitted { crossed := crossed + [t]; }
    }
    assert ALL_THRESHOLDS[..|ALL_THRESHOLDS|] == ALL_THRESHOLDS;
    SelectionDescends(ALL_THRESHOLDS, current, previous, emitted);
  }

  method RecoveryPassedThresholds(current: int, emitted: set<Threshold>) returns (passed: seq<Threshold>)
    ensures passed == RecoveryPassed(current, emitted) && Descending(passed)
    ensures forall t: Threshold :: t in passed <==> 0 < current <= t.Seconds() && t !in emitted
  {
    AllThresholdsListed();
    AllDescend();
    if current <= 0 { return []; }
    passed := [];
    for i := 0 to |ALL_THRESHOLDS|
      invariant passed == SelectThresholds(ALL_THRESHOLDS[..i], current, NO_UPPER_BOUND, emitted)
    {
      var t := ALL_THRESHOLDS[i];
      SelectLast(ALL_THRESHOLDS[..i], t, current, NO_UPPER_BOUND, emitted);
      assert ALL_THRESHOLDS[..i + 1] == ALL_THRESHOLDS[..i] + [t];
      if t.Seconds() >= current && t !in emitted { passed := passed + [t]; }
    }
    assert ALL_THRESHOLDS[..|ALL_THRESHOLDS|] == ALL_THRESHOLDS;
    SelectionDescends(ALL_THRESHOLDS, current, NO_UPPER_BOUND, emitted);
  }

  // ---- order ---------------------------------------------------------------------------------

  lemma AllDescend()
    ensures Descending(ALL_THRESHOLDS)
  {
  }

  lemma {:induction false} SelectionDescends(ts: seq<Threshold>, low: int, high: int, emitted: set<Threshold>)
    requires Descending(ts)
    ensures Descending(SelectThresholds(ts, low, high, emitted))
    decreases |ts|
  {
    if ts != [] {
      var front, last := ts[..|ts| - 1], ts[|ts| - 1];
      assert ts == front + [last];
      SelectionDescends(front, low, high, emitted);
      var rest := SelectThresholds(front, low, high, emitted);
      forall i | 0 <= i < |rest| ensures rest[i].Seconds() > last.Seconds() {
        assert rest[i] in front;
      }
    }
  }

  // ---- one evaluation or many ------------------------------------------------------------------

  lemma FrontIsLonger(ts: seq<Threshold>)
    requires Descending(ts) && ts != []
    ensures Descending(ts[..|ts| - 1]) && forall t <- ts[..|ts| - 1] :: t.Seconds() > ts[|ts| - 1].Seconds()
  {
  }

  lemma FirstTwoDiffer(ts: seq<Threshold>)
    requires Descending(ts) && |ts| > 1
    ensures ts[0] in ts && ts[1] in ts && ts[0].Seconds() > ts[1].Seconds()
  {
  }

  lemma SelectLast(front: seq<Threshold>, last: Threshold, low: int, high: int, emitted: set<Threshold>)
    ensures SelectThresholds(front + [last], low, high, emitted) ==
      SelectThresholds(front, low, high, emitted)
      + (if low <= last.Seconds() < high && last !in emitted then [last] else [])
  {
    assert (front + [last])[..|front|] == front;
  }

  /** Below a threshold as long as `high` nothing longer is selected. */
  lemma NoneBelow(ts: seq<Threshold>, low: int, high: int, t: Threshold, emitted: set<Threshold>)
    requires forall x <- ts :: x.Seconds() > t.Seconds()
    ensures high <= t.Seconds() ==> SelectThresholds(ts, low, high, emitted) == []
  {
    var r := SelectThresholds(ts, low, high, emitted);
    if r != [] { assert r[0] in r; }
  }

  /** Two evaluations in a row report what one would, in the same order. */
  lemma {:induction false} SelectionSplits(ts: seq<Threshold>, low: int, mid: int, high: int, emitted: set<Threshold>)
    requires Descending(ts) && low <= mid <= high
    ensures SelectThresholds(ts, low, high, emitted)
      == SelectThresholds(ts, mid, high, emitted) + SelectThresholds(ts, low, mid, emitted)
    decreases |ts|
  {
    if ts != [] {
      hide SelectThresholds, Descending;
      var front, last := ts[..|ts| - 1], ts[|ts| - 1];
      assert ts == front + [last];
      FrontIsLonger(ts);
      SelectionSplits(front, low, mid, high, emitted);
      SelectLast(front, last, low, mid, emitted);
      SelectLast(front, last, mid, high, emitted);
      SelectLast(front, last, low, high, emitted);
      NoneBelow(front, low, mid, last, emitted);
    }
  }

  /** The spacing of the ticks does not matter: however the time between `previous` and `current`
      is cut, the warnings are the same, in the same order. */
  lemma CrossingSplits(previous: int, mid: int, current: int, emitted: set<Threshold>)
    requires 0 < current <= mid <= previous
    ensures Crossed(previous, current, emitted) == Crossed(previous, mid, emitted) + Crossed(mid, current, emitted)
    ensures Crossed(mid, current, emitted) == Crossed(mid, current, emitted + (set t <- Crossed(previous, mid, emitted)))
  {
    AllDescend();
    SelectionSplits(ALL_THRESHOLDS, current, mid, previous, emitted);
    SelectionIgnores(ALL_THRESHOLDS, current, mid, emitted, emitted + (set t <- Crossed(previous, mid, emitted)));
  }

  lemma {:induction false} SelectionIgnores(ts: seq<Threshold>, low: int, high: int, e: set<Threshold>, f: set<Threshold>)
    requires forall t <- ts :: low <= t.Seconds() < high ==> (t in e <==> t in f)
    ensures SelectThresholds(ts, low, high, e) == SelectThresholds(ts, low, high, f)
    decreases |ts|
  {
    if ts != [] {
      assert ts == ts[..|ts| - 1] + [ts[|ts| - 1]];
      SelectionIgnores(ts[..|ts| - 1], low, high, e, f);
    }
  }

  /** From creation on: what was passed or due at creation and what has been crossed since are
      together exactly the thresholds not below the time left. */
  lemma WarningsCover(duration: nat, current: nat, initial: set<Threshold>)
    requires 0 < current <= duration && initial == CreationPassed(duration) + (set t <- CreationDue(duration))
    ensures forall t: Threshold ::
      t in initial + (set x <- Crossed(duration, current, initial)) <==> current <= t.Seconds()
    ensures CreationPassed(duration) !! (set t <- CreationDue(duration))
  {
    AllThresholdsListed();
  }
}
