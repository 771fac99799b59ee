/** The two history rollups: runs of at most `k` neighbouring bars, broken at gaps.

`_aggregate_bars_from_lower_timeframe` and `_rollup_intraday_bars` run the same loop; the second sorts first
and derives `k` and the step from the names of the two bar sizes.

What the runs are, that they are the only ones, what a rollup conserves, and exactly when it agrees with the
aggregation by the clock. */
module BarRuns {
  import opened Common
  import opened Bars
  import BarAggregation

  // ---------------------------------------------------------------- the split into runs

  /** A gap that does not break a run: positive and at most two steps. */
  predicate Near(previous: int, next: int, step: int) {
    0 < next - previous <= step * 2
  }

  predicate Extends(run: seq<Bar>, b: Bar, k: int, step: int)
    requires run != []
  {
    |run| < k && Near(run[|run| - 1].time, b.time, step)
  }

  function AppendToRuns(runs: seq<seq<Bar>>, b: Bar, k: int, step: int): seq<seq<Bar>> {
    var m := |runs| - 1;
    if runs != [] && runs[m] != [] && Extends(runs[m], b, k, step)
    then runs[..m] + [runs[m] + [b]]
    else runs + [[b]]
  }

  function Runs(bars: seq<Bar>, k: int, step: int): seq<seq<Bar>> {
    if bars == [] then [] else AppendToRuns(Runs(bars[..|bars| - 1], k, step), bars[|bars| - 1], k, step)
  }

  function Flatten(runs: seq<seq<Bar>>): seq<Bar> {
    if runs == [] then [] else Flatten(runs[..|runs| - 1]) + runs[|runs| - 1]
  }

  /** One bar per run, timed by its first bar. */
  function Summaries(runs: seq<seq<Bar>>): seq<Bar>
    requires forall i :: 0 <= i < |runs| ==> runs[i] != []
  {
    if runs == [] then [] else
    var last := runs[|runs| - 1];
    Summaries(runs[..|runs| - 1]) + [Summary(last[0].time, last)]
  }

  predicate RunOk(run: seq<Bar>, k: int, step: int) {
    && 1 <= |run| <= k
    && forall i :: 0 <= i < |run| - 1 ==> Near(run[i].time, run[i + 1].time, step)
  }

  /** A split of the series into runs that are as long as allowed: a run ends only when it has `k` bars or the
      next bar is not near. */
  ghost predicate IsSplit(runs: seq<seq<Bar>>, bars: seq<Bar>, k: int, step: int) {
    && Flatten(runs) == bars
    && (forall i :: 0 <= i < |runs| ==> RunOk(runs[i], k, step))
    && (forall i :: 0 <= i < |runs| - 1 ==> !Extends(runs[i], runs[i + 1][0], k, step))
  }

  lemma FlattenAppend(runs: seq<seq<Bar>>, run: seq<Bar>)
    ensures Flatten(runs + [run]) == Flatten(runs) + run
  {
    assert (runs + [run])[..|runs|] == runs;
  }

  lemma SummariesAppend(runs: seq<seq<Bar>>, run: seq<Bar>)
    requires run != [] && forall i :: 0 <= i < |runs| ==> runs[i] != []
    ensures Summaries(runs + [run]) == Summaries(runs) + [Summary(run[0].time, run)]
  {
    assert (runs + [run])[..|runs|] == runs;
  }

  lemma AppendKeepsSplit(runs: seq<seq<Bar>>, bars: seq<Bar>, b: Bar, k: int, step: int)
    requires k >= 1 && IsSplit(runs, bars, k, step)
    ensures IsSplit(AppendToRuns(runs, b, k, step), bars + [b], k, step)
  {
    var m := |runs| - 1;
    if runs != [] && Extends(runs[m], b, k, step) {
      var done, run := runs[..m], runs[m];
      assert runs == done + [run];
      FlattenAppend(done, run);
      FlattenAppend(done, run + [b]);
      assert Flatten(done) + (run + [b]) == bars + [b];
      assert RunOk(run + [b], k, step);
      assert (run + [b])[0] == run[0];
    } else {
      FlattenAppend(runs, [b]);
      assert RunOk([b], k, step);
    }
  }

  lemma {:induction false} RunsSplit(bars: seq<Bar>, k: int, step: int)
    requires k >= 1
    ensures IsSplit(Runs(bars, k, step), bars, k, step)
  {
    if bars != [] {
      var n := |bars| - 1;
      RunsSplit(bars[..n], k, step);
      AppendKeepsSplit(Runs(bars[..n], k, step), bars[..n], bars[n], k, step);
      assert bars[..n] + [bars[n]] == bars;
    }
  }

  /** Without its last bar, a split is a split of the shorter series, and putting the bar back restores it. */
  lemma DropLoneBar(done: seq<seq<Bar>>, b: Bar, bars: seq<Bar>, k: int, step: int)
    requires IsSplit(done + [[b]], bars, k, step)
    ensures bars != [] && bars[|bars| - 1] == b && IsSplit(done, bars[..|bars| - 1], k, step)
    ensures AppendToRuns(done, b, k, step) == done + [[b]]
  {
    var runs := done + [[b]];
    FlattenAppend(done, [b]);
    forall i | 0 <= i < |done| ensures RunOk(done[i], k, step) { assert runs[i] == done[i]; }
    forall i | 0 <= i < |done| - 1 ensures !Extends(done[i], done[i + 1][0], k, step) {
      assert runs[i] == done[i] && runs[i + 1] == done[i + 1];
    }
    if done != [] {
      assert runs[|done| - 1] == done[|done| - 1] && runs[|done| - 1 + 1] == [b];
    }
  }

  lemma DropRunBar(done: seq<seq<Bar>>, run: seq<Bar>, b: Bar, bars: seq<Bar>, k: int, step: int)
    requires run != [] && IsSplit(done + [run + [b]], bars, k, step)
    ensures bars != [] && bars[|bars| - 1] == b && IsSplit(done + [run], bars[..|bars| - 1], k, step)
    ensures AppendToRuns(done + [run], b, k, step) == done + [run + [b]]
  {
    var runs, shorter := done + [run + [b]], done + [run];
    FlattenAppend(done, run);
    FlattenAppend(done, run + [b]);
    assert bars == Flatten(done) + run + [b];
    assert runs[|done|] == run + [b];
    RunWithout(run, b, k, step);
    forall i | 0 <= i < |shorter| ensures RunOk(shorter[i], k, step) {
      if i < |done| { assert runs[i] == shorter[i]; }
    }
    forall i | 0 <= i < |shorter| - 1 ensures !Extends(shorter[i], shorter[i + 1][0], k, step) {
      assert runs[i] == shorter[i] && runs[i + 1][0] == shorter[i + 1][0];
    }
    ExtendRun(done, run, b, k, step);
  }

  lemma RunWithout(run: seq<Bar>, b: Bar, k: int, step: int)
    requires run != [] && RunOk(run + [b], k, step)
    ensures RunOk(run, k, step) && Extends(run, b, k, step)
  {
    var longer := run + [b];
    assert longer[|run| - 1] == run[|run| - 1] && longer[|run| - 1 + 1] == b;
    forall i | 0 <= i < |run| - 1 ensures Near(run[i].time, run[i + 1].time, step) {
      assert longer[i] == run[i] && longer[i + 1] == run[i + 1];
    }
  }

  /** The split is the only one: the rollup's runs are the maximal ones. */
  lemma {:induction false} SplitUnique(runs: seq<seq<Bar>>, bars: seq<Bar>, k: int, step: int)
    requires k >= 1 && IsSplit(runs, bars, k, step)
    ensures runs == Runs(bars, k, step)
    decreases |bars|
  {
    if runs != [] {
      var m := |runs| - 1;
      var done, last := runs[..m], runs[m];
      var b := last[|last| - 1];
      if |last| == 1 {
        assert last == [b] && runs == done + [last];
        DropLoneBar(done, b, bars, k, step);
        SplitUnique(done, bars[..|bars| - 1], k, step);
      } else {
        var run := last[..|last| - 1];
        assert last == run + [b] && runs == done + [last];
        DropRunBar(done, run, b, bars, k, step);
        SplitUnique(done + [run], bars[..|bars| - 1], k, step);
      }
    }
  }

  lemma ExtendRun(done: seq<seq<Bar>>, run: seq<Bar>, b: Bar, k: int, step: int)
    requires run != [] && Extends(run, b, k, step)
    ensures AppendToRuns(done + [run], b, k, step) == done + [run + [b]]
  {
    assert (done + [run])[..|done|] == done;
  }

  lemma StartRun(done: seq<seq<Bar>>, b: Bar, k: int, step: int)
    requires done != [] ==> done[|done| - 1] != [] && !Extends(done[|done| - 1], b, k, step)
    ensures AppendToRuns(done, b, k, step) == done + [[b]]
  {
  }

  // ---------------------------------------------------------------- the loop

  /** The finished runs, the open bucket and the bars put out so far. */
  ghost predicate Finished(done: seq<seq<Bar>>, result: seq<Bar>) {
    (forall j :: 0 <= j < |done| ==> done[j] != []) && result == Summaries(done)
  }

  function Closed(done: seq<seq<Bar>>, bucket: seq<Bar>): seq<seq<Bar>> {
    if bucket == [] then done else done + [bucket]
  }

  lemma GroupedNext(done: seq<seq<Bar>>, bucket: seq<Bar>, bars: seq<Bar>, b: Bar, k: int, step: int)
    requires Runs(bars, k, step) == Closed(done, bucket)
    requires if bucket != [] then Extends(bucket, b, k, step)
             else done != [] ==> done[|done| - 1] != [] && !Extends(done[|done| - 1], b, k, step)
    ensures Runs(bars + [b], k, step) == done + [bucket + [b]]
  {
    assert (bars + [b])[..|bars|] == bars;
    if bucket != [] {
      ExtendRun(done, bucket, b, k, step);
    } else {
      StartRun(done, b, k, step);
      assert bucket + [b] == [b];
    }
  }

  /** `flush_bucket` */
  method FlushBucket(bucket: seq<Bar>, result: seq<Bar>, ghost done: seq<seq<Bar>>)
    returns (emptied: seq<Bar>, flushed: seq<Bar>, ghost done': seq<seq<Bar>>)
    requires Finished(done, result)
    ensures emptied == [] && done' == Closed(done, bucket) && Finished(done', flushed)
  {
    if bucket == [] {
      return [], result, done;
    }
    SummariesAppend(done, bucket);
    return [], result + [Summary(bucket[0].time, bucket)], done + [bucket];
  }

  /** The open bucket can still grow, and the last finished run cannot. */
  ghost predicate Pending(done: seq<seq<Bar>>, bucket: seq<Bar>, previous: Option<int>, k: int) {
    && |bucket| < k
    && (if bucket == [] then done != [] ==> |done[|done| - 1]| >= k else previous == Some(bucket[|bucket| - 1].time))
  }

  /** A bucket is closed by the next bar exactly when that bar is not near. */
  method FlushAtGap(bucket: seq<Bar>, result: seq<Bar>, previous: Option<int>, b: Bar, k: int, step: int,
                    ghost done: seq<seq<Bar>>, ghost bars: seq<Bar>)
    returns (bucket': seq<Bar>, result': seq<Bar>, ghost done': seq<seq<Bar>>)
    requires Finished(done, result) && Pending(done, bucket, previous, k)
    requires Runs(bars, k, step) == Closed(done, bucket)
    ensures Finished(done', result') && |bucket'| < k
    ensures Runs(bars + [b], k, step) == done' + [bucket' + [b]]
  {
    bucket', result', done' := bucket, result, done;
    if previous.Some? {
      var gap := b.time - previous.value;
      if gap <= 0 || gap > step * 2 {
        bucket', result', done' := FlushBucket(bucket, result, done);
      }
    }
    GroupedNext(done', bucket', bars, b, k, step);
  }

  /** Both rollups' loop: a bucket of neighbours, flushed at gaps and when it is full. */
  method GroupRuns(bars: seq<Bar>, barsPerBucket: int, step: int) returns (result: seq<Bar>)
    requires barsPerBucket >= 1
    ensures RunsNonEmpty(bars, barsPerBucket, step) && result == Summaries(Runs(bars, barsPerBucket, step))
  {
    result := [];
    var bucket: seq<Bar> := [];
    var previous: Option<int> := None;
    ghost var done: seq<seq<Bar>> := [];
    for i := 0 to |bars|
      invariant Finished(done, result) && Pending(done, bucket, previous, barsPerBucket)
      invariant Runs(bars[..i], barsPerBucket, step) == Closed(done, bucket)
    {
      var b := bars[i];
      bucket, result, done := FlushAtGap(bucket, result, previous, b, barsPerBucket, step, done, bars[..i]);
      assert bars[..i + 1] == bars[..i] + [b];
      bucket := bucket + [b];
      previous := Some(b.time);
      if |bucket| >= barsPerBucket {
        bucket, result, done := FlushBucket(bucket, result, done);
      }
    }
    assert bars[..|bars|] == bars;
    bucket, result, done := FlushBucket(bucket, result, done);
  }

  /** `_aggregate_bars_from_lower_timeframe`: nothing to do for an empty series or a ratio of at most one. */
  method AggregateFromLower(bars: seq<Bar>, barsPerBucket: int, sourceStep: int) returns (result: seq<Bar>)
    ensures barsPerBucket <= 1 ==> result == bars
    ensures barsPerBucket > 1 ==> RunsNonEmpty(bars, barsPerBucket, sourceStep)
                                  && result == Summaries(Runs(bars, barsPerBucket, sourceStep))
  {
    if bars == [] || barsPerBucket <= 1 {
      return bars;
    }
    result := GroupRuns(bars, barsPerBucket, sourceStep);
  }

  ghost predicate RunsNonEmpty(bars: seq<Bar>, k: int, step: int) {
    forall i :: 0 <= i < |Runs(bars, k, step)| ==> Runs(bars, k, step)[i] != []
  }

  // ---------------------------------------------------------------- the rollup that sorts

  function MinutesPerBar(size: string): nat {
    if size == "1m" then 1 else if size == "5m" then 5 else if size == "15m" then 15
    else if size == "1h" then 60 else if size == "4h" then 240 else 0
  }

  /** Sizes between which `_rollup_intraday_bars` rolls up; all others leave the bars as they are. */
  predicate CanRollUp(source: string, target: string) {
    && source != target
    && 0 < MinutesPerBar(source) <= MinutesPerBar(target)
    && MinutesPerBar(target) % MinutesPerBar(source) == 0
  }

  function InsertByTime(rows: seq<Bar>, b: Bar): seq<Bar> {
    var m := |rows| - 1;
    if rows == [] || rows[m].time <= b.time then rows + [b] else InsertByTime(rows[..m], b) + [rows[m]]
  }

  /** `sorted(bars, key=time)`: stable. */
  function SortedByTime(bars: seq<Bar>): seq<Bar> {
    if bars == [] then [] else InsertByTime(SortedByTime(bars[..|bars| - 1]), bars[|bars| - 1])
  }

  method RollupIntraday(bars: seq<Bar>, source: string, target: string) returns (result: seq<Bar>)
    ensures !CanRollUp(source, target) ==> result == bars
    ensures CanRollUp(source, target) ==>
              var k := MinutesPerBar(target) / MinutesPerBar(source);
              var step := MinutesPerBar(source) * 60_000;
              RunsNonEmpty(SortedByTime(bars), k, step) && result == Summaries(Runs(SortedByTime(bars), k, step))
  {
    if bars == [] || source == target {
      return bars;
    }
    var sourceMinutes, targetMinutes := MinutesPerBar(source), MinutesPerBar(target);
    if sourceMinutes == 0 || targetMinutes == 0 || targetMinutes < sourceMinutes {
      return bars;
    }
    if targetMinutes % sourceMinutes != 0 {
      return bars;
    }
    RatioAtLeastOne(targetMinutes, sourceMinutes);
    result := GroupRuns(SortedByTime(bars), targetMinutes / sourceMinutes, sourceMinutes * 60_000);
  }

  lemma RatioAtLeastOne(a: int, b: int)
    requires 0 < b <= a
    ensures a / b >= 1
  {
  }

  lemma {:induction false} InsertKeepsBars(rows: seq<Bar>, b: Bar)
    ensures multiset(InsertByTime(rows, b)) == multiset(rows) + multiset{b}
  {
    var m := |rows| - 1;
    if rows != [] && rows[m].time > b.time {
      InsertKeepsBars(rows[..m], b);
      assert rows == rows[..m] + [rows[m]];
    }
  }

  lemma {:induction false} InsertKeepsOrder(rows: seq<Bar>, b: Bar)
    requires InOrder(rows)
    ensures InOrder(InsertByTime(rows, b))
  {
    var m := |rows| - 1;
    if rows != [] && rows[m].time > b.time {
      var before := InsertByTime(rows[..m], b);
      InsertKeepsOrder(rows[..m], b);
      InsertKeepsBars(rows[..m], b);
      forall i | 0 <= i < |before| ensures before[i].time <= rows[m].time {
        assert before[i] in multiset(before);
      }
    }
  }

  /** The sort returns the same bars in time order. */
  lemma {:induction false} SortSorts(bars: seq<Bar>)
    ensures InOrder(SortedByTime(bars)) && multiset(SortedByTime(bars)) == multiset(bars)
  {
    if bars != [] {
      var n := |bars| - 1;
      SortSorts(bars[..n]);
      InsertKeepsOrder(SortedByTime(bars[..n]), bars[n]);
      InsertKeepsBars(SortedByTime(bars[..n]), bars[n]);
      assert bars == bars[..n] + [bars[n]];
      assert multiset(bars) == multiset(bars[..n]) + multiset{bars[n]};
    }
  }

  /** Bars already in order stay as they are. */
  lemma {:induction false} SortKeepsOrdered(bars: seq<Bar>)
    requires InOrder(bars)
    ensures SortedByTime(bars) == bars
  {
    if bars != [] {
      SortKeepsOrdered(bars[..|bars| - 1]);
    }
  }

  // ---- the sort is stable

  /** The bars of one time, in list order. */
  function AtTime(bars: seq<Bar>, t: int): seq<Bar> {
    if bars == [] then [] else
    var n := |bars| - 1;
    AtTime(bars[..n], t) + if bars[n].time == t then [bars[n]] else []
  }

  lemma AtTimeOfAppend(bars: seq<Bar>, b: Bar, t: int)
    ensures AtTime(bars + [b], t) == AtTime(bars, t) + if b.time == t then [b] else []
  {
    assert (bars + [b])[..|bars|] == bars;
  }

  lemma {:induction false} InsertIsStable(rows: seq<Bar>, b: Bar, t: int)
    requires InOrder(rows)
    ensures AtTime(InsertByTime(rows, b), t) == AtTime(rows, t) + if b.time == t then [b] else []
  {
    var m := |rows| - 1;
    if rows == [] || rows[m].time <= b.time {
      AtTimeOfAppend(rows, b, t);
    } else {
      InsertIsStable(rows[..m], b, t);
      AtTimeOfAppend(InsertByTime(rows[..m], b), rows[m], t);
      if rows[m].time == t {
        assert AtTime(rows[..m], t) + [] == AtTime(rows[..m], t);
      } else {
        assert AtTime(rows, t) + [] == AtTime(rows, t);
      }
    }
  }

  /** Bars of equal time keep their order. */
  lemma {:induction false} SortIsStable(bars: seq<Bar>, t: int)
    ensures AtTime(SortedByTime(bars), t) == AtTime(bars, t)
  {
    if bars != [] {
      var n := |bars| - 1;
      SortSorts(bars[..n]);
      SortIsStable(bars[..n], t);
      InsertIsStable(SortedByTime(bars[..n]), bars[n], t);
    }
  }

  /** Both rollups give the same bars for a series in time order. */
  lemma {:induction false} RollupsAgree(bars: seq<Bar>, source: string, target: string)
    requires InOrder(bars) && CanRollUp(source, target)
    ensures var k := MinutesPerBar(target) / MinutesPerBar(source);
            var step := MinutesPerBar(source) * 60_000;
            k > 1 && Runs(SortedByTime(bars), k, step) == Runs(bars, k, step)
  {
    SortKeepsOrdered(bars);
  }

  // ---------------------------------------------------------------- conservation

  lemma SummaryOfSummaries(a: seq<Bar>, b: seq<Bar>, rows: seq<Bar>, time: int)
    requires a != [] && b != [] && rows != []
    requires HighOf(rows) == HighOf(a) && LowOf(rows) == LowOf(a) && VolumeOf(rows) == VolumeOf(a)
    ensures var rows' := rows + [Summary(time, b)];
            HighOf(rows') == HighOf(a + b) && LowOf(rows') == LowOf(a + b) && VolumeOf(rows') == VolumeOf(a + b)
  {
    var s := Summary(time, b);
    assert (rows + [s])[..|rows|] == rows;
    HighOfConcat(a, b);
    VolumeOfConcat(a, b);
  }

  /** A rollup conserves the series: total volume, highest high, lowest low, first open, last close, start. */
  lemma {:induction false} RunsConserve(runs: seq<seq<Bar>>)
    requires runs != [] && forall i :: 0 <= i < |runs| ==> runs[i] != []
    ensures Flatten(runs) != [] && |Summaries(runs)| == |runs|
    ensures var bars, rows := Flatten(runs), Summaries(runs);
            Summary(bars[0].time, bars) == Summary(rows[0].time, rows)
  {
    var m := |runs| - 1;
    var last := runs[m];
    if m == 0 {
      assert runs == [] + [last];
      FlattenAppend([], last);
      SummariesAppend([], last);
      SummaryOfOne(last[0].time, Summary(last[0].time, last));
      assert Flatten(runs) == last && Summaries(runs) == [Summary(last[0].time, last)];
    } else {
      RunsConserve(runs[..m]);
      assert runs == runs[..m] + [last];
      FlattenAppend(runs[..m], last);
      SummariesAppend(runs[..m], last);
      SummaryOfSummaries(Flatten(runs[..m]), last, Summaries(runs[..m]), last[0].time);
    }
  }

  lemma RollupConserves(bars: seq<Bar>, k: int, step: int)
    requires bars != [] && k >= 1
    ensures RunsNonEmpty(bars, k, step)
    ensures var rows := Summaries(Runs(bars, k, step));
            rows != [] && Summary(rows[0].time, rows) == Summary(bars[0].time, bars)
  {
    RunsSplit(bars, k, step);
    RunsConserve(Runs(bars, k, step));
  }

  // ---------------------------------------------------------------- against the clock

  /** One bar every `step`, none missing. */
  predicate GapFree(bars: seq<Bar>, step: int) {
    forall i :: 0 <= i < |bars| - 1 ==> bars[i + 1].time == bars[i].time + step
  }

  lemma {:induction false} GapFreeTime(bars: seq<Bar>, step: int, i: nat)
    requires GapFree(bars, step) && i < |bars|
    ensures bars[i].time == bars[0].time + i * step
  {
    if i > 0 {
      GapFreeTime(bars, step, i - 1);
    }
  }

  lemma GapFreeInOrder(bars: seq<Bar>, step: int)
    requires GapFree(bars, step) && step > 0
    ensures InOrder(bars)
  {
    forall i, j | 0 <= i < j < |bars| ensures bars[i].time <= bars[j].time {
      GapFreeTime(bars, step, i);
      GapFreeTime(bars, step, j);
      MulMonotone(i, j, step);
    }
  }

  lemma ExtendInBucket(done: seq<seq<Bar>>, last: seq<Bar>, b: Bar, w: int)
    requires last != [] && w > 0 && BarAggregation.BucketOf(b.time, w) == last[0].time
    requires forall i :: 0 <= i < |done| ==> done[i] != []
    ensures Summaries(done + [last + [b]]) == BarAggregation.AppendBar(Summaries(done + [last]), b, w)
  {
    SummariesAppend(done, last);
    SummariesAppend(done, last + [b]);
    SummaryAbsorbs(last[0].time, last, b);
    assert (Summaries(done) + [Summary(last[0].time, last)])[..|Summaries(done)|] == Summaries(done);
  }

  lemma StartBucket(done: seq<seq<Bar>>, last: seq<Bar>, b: Bar, w: int)
    requires last != [] && w > 0 && BarAggregation.BucketOf(b.time, w) == b.time > last[0].time
    requires forall i :: 0 <= i < |done| ==> done[i] != []
    ensures Summaries(done + [last] + [[b]]) == BarAggregation.AppendBar(Summaries(done + [last]), b, w)
  {
    SummariesAppend(done, last);
    SummariesAppend(done + [last], [b]);
    SummaryOfOne(b.time, b);
  }

  /** Where an aligned gap-free series stands after its last bar. */
  ghost predicate AlignedAt(runs: seq<seq<Bar>>, b: Bar, k: int, step: int)
    requires k * step > 0
  {
    && (forall i :: 0 <= i < |runs| ==> runs[i] != [])
    && runs != []
    && var last := runs[|runs| - 1];
       && |last| <= k
       && last[0].time % (k * step) == 0
       && last[|last| - 1] == b
       && b.time + step == last[0].time + |last| * step
  }

  lemma AlignedAppend(runs: seq<seq<Bar>>, b: Bar, next: Bar, k: int, step: int)
    requires k >= 1 && step > 0 && k * step > 0 && AlignedAt(runs, b, k, step) && next.time == b.time + step
    ensures AlignedAt(AppendToRuns(runs, next, k, step), next, k, step)
    ensures Summaries(AppendToRuns(runs, next, k, step)) == BarAggregation.AppendBar(Summaries(runs), next, k * step)
  {
    var last := runs[|runs| - 1];
    var done := runs[..|runs| - 1];
    assert runs == done + [last];
    assert (|last| + 1) * step == |last| * step + step;
    if |last| < k {
      InsideBucket(last[0].time, |last|, k, step);
      ExtendRun(done, last, next, k, step);
      ExtendInBucket(done, last, next, k * step);
    } else {
      NextBucket(last[0].time, k * step);
      StartRun(runs, next, k, step);
      StartBucket(done, last, next, k * step);
    }
  }

  /** On an aligned gap-free series the rollups build, run by run, what the clock builds. */
  lemma {:induction false} AlignedRuns(bars: seq<Bar>, k: int, step: int)
    requires bars != [] && k >= 1 && step > 0 && k * step > 0 && GapFree(bars, step)
    requires bars[0].time % (k * step) == 0
    ensures AlignedAt(Runs(bars, k, step), bars[|bars| - 1], k, step)
    ensures Summaries(Runs(bars, k, step)) == BarAggregation.SeqBuckets(bars, k * step)
  {
    var n := |bars| - 1;
    var b := bars[n];
    if n == 0 {
      assert bars[..0] == [] && bars == [b];
      SummaryOfOne(b.time, b);
      SummariesAppend([], [b]);
      assert Runs(bars, k, step) == [] + [[b]] == [[b]];
      assert Summaries([]) + [Summary(b.time, [b])] == [] + [BarAggregation.Starting(b.time, b)];
    } else {
      AlignedRuns(bars[..n], k, step);
      AlignedAppend(Runs(bars[..n], k, step), bars[n - 1], b, k, step);
    }
  }

  lemma InsideBucket(start: int, i: int, k: int, step: int)
    requires step > 0 && 0 <= i < k && k * step > 0 && start % (k * step) == 0
    ensures BarAggregation.BucketOf(start + i * step, k * step) == start
  {
    BarAggregation.SlotFits(i, k, step);
    var q := start / (k * step);
    assert start == q * (k * step);
    BarAggregation.QuotientIs(start + i * step, k * step, q);
  }

  lemma NextBucket(start: int, w: int)
    requires w > 0 && start % w == 0
    ensures (start + w) % w == 0 && BarAggregation.BucketOf(start + w, w) == start + w
  {
    var q := start / w;
    assert start == q * w;
    assert start + w == (q + 1) * w;
    BarAggregation.QuotientIs(start + w, w, q + 1);
  }

  lemma MisalignedRuns(bars: seq<Bar>, k: int, step: int, w: int)
    requires bars != [] && k >= 1 && w > 0 && InOrder(bars) && bars[0].time != BarAggregation.BucketOf(bars[0].time, w)
    ensures RunsNonEmpty(bars, k, step)
    ensures Summaries(Runs(bars, k, step)) != BarAggregation.SeqBuckets(bars, w)
  {
    FirstBucketTime(bars, w);
    RunsStart(bars, k, step);
  }

  /** The exact condition: on a gap-free series, the run rollups equal the clock aggregate if and only if the
      first bar starts a bucket. */
  lemma RunsEqualClockIffAligned(bars: seq<Bar>, k: int, step: int)
    requires bars != [] && k >= 1 && step > 0 && k * step > 0 && GapFree(bars, step)
    ensures RunsNonEmpty(bars, k, step)
    ensures Summaries(Runs(bars, k, step)) == Listing(BarAggregation.Buckets(bars, k * step))
            <==> bars[0].time % (k * step) == 0
  {
    GapFreeInOrder(bars, step);
    BarAggregation.AggregateInOrder(bars, k * step);
    RunsSplit(bars, k, step);
    if bars[0].time % (k * step) == 0 {
      AlignedRuns(bars, k, step);
    } else {
      MisalignedRuns(bars, k, step, k * step);
    }
  }

  /** How many milliseconds a bar of this size covers. */
  predicate Covers(size: string, ms: int) {
    || (size == "1m" && ms == 60_000) || (size == "5m" && ms == 300_000) || (size == "15m" && ms == 900_000)
    || (size == "1h" && ms == 3_600_000) || (size == "4h" && ms == 14_400_000)
  }

  /** Each named rollup is what its name says: from a gap-free series of the smaller size that starts on a boundary of
      the larger one, it makes the clock aggregate of the larger one's width. */
  lemma RollupIsClock(bars: seq<Bar>, source: string, target: string, s: int, t: int)
    requires Covers(source, s) && Covers(target, t) && s < t && bars != [] && GapFree(bars, s) && bars[0].time % t == 0
    ensures CanRollUp(source, target)
    ensures var k, step := MinutesPerBar(target) / MinutesPerBar(source), MinutesPerBar(source) * 60_000;
            RunsNonEmpty(SortedByTime(bars), k, step)
            && Summaries(Runs(SortedByTime(bars), k, step)) == Listing(BarAggregation.Buckets(bars, t))
  {
    var k := MinutesPerBar(target) / MinutesPerBar(source);
    assert MinutesPerBar(source) * 60_000 == s && MinutesPerBar(target) * 60_000 == t;
    NamedRatio(source, target, s, t);
    GapFreeInOrder(bars, s);
    SortKeepsOrdered(bars);
    RunsEqualClockIffAligned(bars, k, s);
  }

  lemma NamedRatio(source: string, target: string, s: int, t: int)
    requires Covers(source, s) && Covers(target, t) && s < t
    ensures CanRollUp(source, target) && MinutesPerBar(target) / MinutesPerBar(source) >= 1
    ensures MinutesPerBar(target) / MinutesPerBar(source) * s == t
  {
  }

  // ---------------------------------------------------------------- against the clock, with gaps

  /** One row per run. */
  function RunRows(bars: seq<Bar>, k: int, step: int): seq<Bar>
    requires k >= 1
  {
    RunsSplit(bars, k, step);
    Summaries(Runs(bars, k, step))
  }

  function TimesOf(rows: seq<Bar>): seq<int> {
    if rows == [] then [] else TimesOf(rows[..|rows| - 1]) + [rows[|rows| - 1].time]
  }

  lemma {:induction false} TimesAt(rows: seq<Bar>, i: nat)
    requires i < |rows|
    ensures |TimesOf(rows)| == |rows| && TimesOf(rows)[i] == rows[i].time
  {
    if i < |rows| - 1 { TimesAt(rows[..|rows| - 1], i); } else if i > 0 { TimesAt(rows[..|rows| - 1], 0); }
  }

  lemma TimesOfStep(rows: seq<Bar>, b: Bar)
    ensures TimesOf(rows + [b]) == TimesOf(rows) + [b.time]
    ensures rows != [] && b.time == rows[|rows| - 1].time ==> TimesOf(rows[..|rows| - 1] + [b]) == TimesOf(rows)
  {
    assert (rows + [b])[..|rows|] == rows;
    if rows != [] { assert (rows[..|rows| - 1] + [b])[..|rows| - 1] == rows[..|rows| - 1]; }
  }

  /** The last bar goes into the last row, or makes a row of its own. */
  predicate LastBarAbsorbed(before: seq<Bar>, after: seq<Bar>, b: Bar) {
    before != [] && after == before[..|before| - 1] + [Absorb(before[|before| - 1], b)]
  }

  lemma RunRowsStep(bars: seq<Bar>, b: Bar, k: int, step: int)
    requires k >= 1
    ensures var before, after := RunRows(bars, k, step), RunRows(bars + [b], k, step);
            LastBarAbsorbed(before, after, b) || after == before + [b]
  {
    var runs := Runs(bars, k, step);
    RunsSplit(bars, k, step);
    assert (bars + [b])[..|bars|] == bars;
    var m := |runs| - 1;
    if runs != [] && Extends(runs[m], b, k, step) {
      assert runs == runs[..m] + [runs[m]];
      SummariesAppend(runs[..m], runs[m]);
      SummariesAppend(runs[..m], runs[m] + [b]);
      SummaryAbsorbs(runs[m][0].time, runs[m], b);
    } else {
      SummariesAppend(runs, [b]);
      SummaryOfOne(b.time, b);
    }
  }

  /** The last row starts at the time of some bar. */
  lemma {:induction false} LastRowStartsAtBar(bars: seq<Bar>, k: int, step: int) returns (j: nat)
    requires k >= 1 && bars != []
    ensures RunRows(bars, k, step) != [] && j < |bars|
    ensures var rows := RunRows(bars, k, step); rows[|rows| - 1].time == bars[j].time
  {
    var n := |bars| - 1;
    assert bars == bars[..n] + [bars[n]];
    RunRowsStep(bars[..n], bars[n], k, step);
    if LastBarAbsorbed(RunRows(bars[..n], k, step), RunRows(bars, k, step), bars[n]) {
      j := LastRowStartsAtBar(bars[..n], k, step);
    } else {
      j := n;
    }
  }

  /** The clock puts the next bar into its last row or starts one. */
  lemma ClockStep(bars: seq<Bar>, b: Bar, w: int)
    requires w > 0 && InOrder(bars + [b])
    ensures var before, after := BarAggregation.SeqBuckets(bars, w), BarAggregation.SeqBuckets(bars + [b], w);
            var key := BarAggregation.BucketOf(b.time, w);
            if bars != [] && BarAggregation.BucketOf(bars[|bars| - 1].time, w) == key
            then LastBarAbsorbed(before, after, b) && before[|before| - 1].time == key
            else after == before + [BarAggregation.Starting(key, b)]
  {
    assert (bars + [b])[..|bars|] == bars;
    assert InOrder(bars) by { forall i, j | 0 <= i < j < |bars| ensures bars[i].time <= bars[j].time {
      assert (bars + [b])[i] == bars[i] && (bars + [b])[j] == bars[j]; } }
    BarAggregation.SeqBucketsIsTable(bars, w);
  }

  lemma LastTime(rows: seq<Bar>)
    requires rows != []
    ensures |TimesOf(rows)| == |rows| && TimesOf(rows)[|rows| - 1] == rows[|rows| - 1].time
  {
    TimesAt(rows, |rows| - 1);
  }

  lemma BucketOfBucket(t: int, w: int)
    requires w > 0
    ensures BarAggregation.BucketOf(t, w) <= t
    ensures BarAggregation.BucketOf(BarAggregation.BucketOf(t, w), w) == BarAggregation.BucketOf(t, w)
  {
    var q := t / w;
    assert BarAggregation.BucketOf(t, w) == q * w;
    BarAggregation.QuotientIs(q * w, w, q);
  }

  /** A time between a bucket's start and a time of the bucket is in the bucket. */
  lemma BetweenInBucket(start: int, t: int, late: int, w: int)
    requires w > 0 && start == BarAggregation.BucketOf(late, w) && start <= t <= late
    ensures BarAggregation.BucketOf(t, w) == start
  {
    BucketOfBucket(late, w);
    BarAggregation.BucketMonotone(start, t, w);
    BarAggregation.BucketMonotone(t, late, w);
  }

  /** While the rows start alike, no run starts inside a bucket. */
  lemma NoRunInsideBucket(runs: seq<Bar>, runs': seq<Bar>, clock: seq<Bar>, clock': seq<Bar>, b: Bar)
    requires LastBarAbsorbed(runs, runs', b) || runs' == runs + [b]
    requires LastBarAbsorbed(clock, clock', b) && clock[|clock| - 1].time < b.time
    requires TimesOf(runs') == TimesOf(clock')
    ensures LastBarAbsorbed(runs, runs', b)
  {
    LastTime(runs');
    LastTime(clock');
  }

  /** When a run goes on into the next bucket, it starts where that bucket starts. */
  lemma RunIntoNextBucket(runs: seq<Bar>, runs': seq<Bar>, clock: seq<Bar>, clock': seq<Bar>, b: Bar, key: int)
    requires LastBarAbsorbed(runs, runs', b) && clock' == clock + [BarAggregation.Starting(key, b)]
    requires TimesOf(runs') == TimesOf(clock')
    ensures runs[|runs| - 1].time == key
  {
    LastTime(runs');
    LastTime(clock');
  }

  lemma LastsInOrder(bars: seq<Bar>, b: Bar, j: nat)
    requires StrictlyInOrder(bars + [b]) && j < |bars|
    ensures bars[j].time <= bars[|bars| - 1].time < b.time
  {
    var all := bars + [b];
    assert all[j] == bars[j] && all[|bars| - 1] == bars[|bars| - 1] && all[|bars|] == b;
  }

  lemma AbsorbedTimes(rows: seq<Bar>, b: Bar)
    requires rows != []
    ensures TimesOf(rows[..|rows| - 1] + [Absorb(rows[|rows| - 1], b)]) == TimesOf(rows)
  {
    TimesOfStep(rows, Absorb(rows[|rows| - 1], b));
  }

  /** Both absorb the bar, or both start a row with it. */
  predicate StepTogether(runs: seq<Bar>, runs': seq<Bar>, clock: seq<Bar>, clock': seq<Bar>, b: Bar, key: int) {
    || (LastBarAbsorbed(runs, runs', b) && LastBarAbsorbed(clock, clock', b))
    || (runs' == runs + [b] && clock' == clock + [BarAggregation.Starting(key, b)])
  }

  lemma StepsAgree(runs: seq<Bar>, runs': seq<Bar>, clock: seq<Bar>, clock': seq<Bar>, b: Bar, key: int)
    requires StepTogether(runs, runs', clock, clock', b, key) && TimesOf(runs') == TimesOf(clock')
    ensures TimesOf(runs) == TimesOf(clock) && (runs == clock ==> runs' == clock')
  {
    if LastBarAbsorbed(runs, runs', b) && LastBarAbsorbed(clock, clock', b) {
      AbsorbedTimes(runs, b);
      AbsorbedTimes(clock, b);
    } else {
      TimesOfStep(runs, b);
      TimesOfStep(clock, BarAggregation.Starting(key, b));
      assert TimesOf(runs)[..] == TimesOf(runs')[..|TimesOf(runs')| - 1];
      assert TimesOf(clock)[..] == TimesOf(clock')[..|TimesOf(clock')| - 1];
    }
  }

  /** With a bar after the last one, whose buckets start at `key` and `lastKey`. */
  lemma StepsTogether(runs: seq<Bar>, runs': seq<Bar>, clock: seq<Bar>, clock': seq<Bar>, b: Bar, key: int,
                      last: int, lastKey: int)
    requires LastBarAbsorbed(runs, runs', b) || runs' == runs + [b]
    requires if clock != [] && lastKey == key then LastBarAbsorbed(clock, clock', b) && clock[|clock| - 1].time == key
             else clock' == clock + [BarAggregation.Starting(key, b)]
    requires runs == [] <==> clock == []
    requires runs != [] ==>
               runs[|runs| - 1].time <= last < b.time && lastKey <= last && (key <= last ==> lastKey == key)
    requires TimesOf(runs') == TimesOf(clock')
    ensures StepTogether(runs, runs', clock, clock', b, key)
  {
    if runs != [] && lastKey == key {
      NoRunInsideBucket(runs, runs', clock, clock', b);
    } else if LastBarAbsorbed(runs, runs', b) {
      RunIntoNextBucket(runs, runs', clock, clock', b, key);
    }
  }

  /** The last row of the runs starts no later than the last bar, whose bucket is the next bar's or ends before it. */
  lemma LastBar(bars: seq<Bar>, b: Bar, k: int, step: int, w: int)
    requires k >= 1 && w > 0 && StrictlyInOrder(bars + [b]) && bars != []
    ensures var runs, last, key := RunRows(bars, k, step), bars[|bars| - 1].time, BarAggregation.BucketOf(b.time, w);
            && runs != [] && runs[|runs| - 1].time <= last < b.time && BarAggregation.BucketOf(last, w) <= last
            && (key <= last ==> BarAggregation.BucketOf(last, w) == key)
  {
    var last, key := bars[|bars| - 1].time, BarAggregation.BucketOf(b.time, w);
    var j := LastRowStartsAtBar(bars, k, step);
    LastsInOrder(bars, b, j);
    BucketOfBucket(last, w);
    if key <= last { BetweenInBucket(key, last, b.time, w); }
  }

  lemma SameStartsStep(bars: seq<Bar>, b: Bar, k: int, step: int, w: int)
    requires k >= 1 && w > 0 && StrictlyInOrder(bars + [b])
    requires TimesOf(RunRows(bars + [b], k, step)) == TimesOf(BarAggregation.SeqBuckets(bars + [b], w))
    ensures TimesOf(RunRows(bars, k, step)) == TimesOf(BarAggregation.SeqBuckets(bars, w))
    ensures RunRows(bars, k, step) == BarAggregation.SeqBuckets(bars, w) ==>
              RunRows(bars + [b], k, step) == BarAggregation.SeqBuckets(bars + [b], w)
  {
    var runs, runs' := RunRows(bars, k, step), RunRows(bars + [b], k, step);
    var clock, clock' := BarAggregation.SeqBuckets(bars, w), BarAggregation.SeqBuckets(bars + [b], w);
    var key := BarAggregation.BucketOf(b.time, w);
    var last := if bars == [] then 0 else bars[|bars| - 1].time;
    RunRowsStep(bars, b, k, step);
    ClockStep(bars, b, w);
    if bars != [] { LastBar(bars, b, k, step, w); }
    StepsTogether(runs, runs', clock, clock', b, key, last, BarAggregation.BucketOf(last, w));
    StepsAgree(runs, runs', clock, clock', b, key);
  }

  predicate StartAlike(bars: seq<Bar>, k: int, step: int, w: int)
    requires k >= 1 && w > 0
  {
    TimesOf(RunRows(bars, k, step)) == TimesOf(BarAggregation.SeqBuckets(bars, w))
  }

  predicate RowsAlike(bars: seq<Bar>, k: int, step: int, w: int)
    requires k >= 1 && w > 0
  {
    RunRows(bars, k, step) == BarAggregation.SeqBuckets(bars, w)
  }

  lemma StartAlikeStep(bars: seq<Bar>, b: Bar, longer: seq<Bar>, k: int, step: int, w: int)
    requires k >= 1 && w > 0 && longer == bars + [b] && StrictlyInOrder(longer) && StartAlike(longer, k, step, w)
    ensures StartAlike(bars, k, step, w) && (RowsAlike(bars, k, step, w) ==> RowsAlike(longer, k, step, w))
  {
    SameStartsStep(bars, b, k, step, w);
  }

  lemma {:induction false} SameStartsAgree(bars: seq<Bar>, k: int, step: int, w: int)
    requires k >= 1 && w > 0 && StrictlyInOrder(bars) && StartAlike(bars, k, step, w)
    ensures RowsAlike(bars, k, step, w)
  {
    if |bars| > 0 {
      StartAlikeStep(bars[..|bars| - 1], bars[|bars| - 1], bars, k, step, w);
      SameStartsAgree(bars[..|bars| - 1], k, step, w);
    }
  }

  /** The exact condition, with gaps and for every bucket width: on a strictly increasing series the run rollups equal
      the clock aggregate if and only if the runs start where the buckets start. */
  lemma RunsEqualClockIffSameStarts(bars: seq<Bar>, k: int, step: int, w: int)
    requires k >= 1 && w > 0 && StrictlyInOrder(bars)
    ensures RunRows(bars, k, step) == Listing(BarAggregation.Buckets(bars, w))
            <==> TimesOf(RunRows(bars, k, step)) == TimesOf(Listing(BarAggregation.Buckets(bars, w)))
  {
    BarAggregation.AggregateInOrder(bars, w);
    if StartAlike(bars, k, step, w) {
      SameStartsAgree(bars, k, step, w);
    }
  }

  lemma RunsAppend(bars: seq<Bar>, b: Bar, k: int, step: int)
    ensures Runs(bars + [b], k, step) == AppendToRuns(Runs(bars, k, step), b, k, step)
  {
    assert (bars + [b])[..|bars|] == bars;
  }

  lemma RunsOfThree(a: Bar, b: Bar, c: Bar, k: int, step: int)
    requires k == 2 && Near(a.time, b.time, step) && b.time == c.time
    ensures RunRows([] + [a] + [b] + [c], k, step) == [Summary(a.time, [a] + [b])] + [c]
  {
    RunsAppend([], a, k, step);
    RunsAppend([] + [a], b, k, step);
    RunsAppend([] + [a] + [b], c, k, step);
    assert Runs([] + [a], k, step) == [] + [[a]];
    ExtendRun([], [a], b, k, step);
    StartRun([] + [[a] + [b]], c, k, step);
    SummariesAppend([], [a] + [b]);
    SummariesAppend([] + [[a] + [b]], [c]);
    SummaryOfOne(c.time, c);
  }

  lemma ClockAppend(bars: seq<Bar>, b: Bar, w: int)
    requires w > 0
    ensures BarAggregation.SeqBuckets(bars + [b], w)
            == BarAggregation.AppendBar(BarAggregation.SeqBuckets(bars, w), b, w)
  {
    assert (bars + [b])[..|bars|] == bars;
  }

  lemma VolumeOfTwo(a: Bar, b: Bar)
    ensures VolumeOf([a] + [b]) == a.volume + b.volume
  {
    VolumeOfConcat([a], [b]);
    SummaryOfOne(0, a);
    SummaryOfOne(0, b);
    assert Summary(0, [a]).volume == VolumeOf([a]) && Summary(0, [b]).volume == VolumeOf([b]);
  }

  /** Strictness is needed: with two bars at one bucket start, the first can end a run and the second start one. The
      rows start alike, but the first run has the volume of a bar of the second bucket. */
  lemma EqualTimesDisagree(a: Bar, b: Bar, c: Bar, k: int, step: int, w: int)
    requires k == 2 && Near(a.time, b.time, step) && b.time == c.time && b.volume > 0.0
    requires w > 0 && BarAggregation.BucketOf(a.time, w) == a.time && BarAggregation.BucketOf(b.time, w) == b.time
    ensures var bars := [] + [a] + [b] + [c];
            InOrder(bars) && StartAlike(bars, k, step, w) && !RowsAlike(bars, k, step, w)
  {
    RunsOfThree(a, b, c, k, step);
    ClockAppend([], a, w);
    assert BarAggregation.SeqBuckets([] + [a], w) == [a];
    ClockAppend([] + [a], b, w);
    assert BarAggregation.SeqBuckets([] + [a] + [b], w) == [a] + [b];
    ClockAppend([] + [a] + [b], c, w);
    assert ([a] + [b])[..1] == [a];
    VolumeOfTwo(a, b);
    var run := Summary(a.time, [a] + [b]);
    TimesOfStep([run], c);
    TimesOfStep([a], Absorb(b, c));
    TimesOfStep([], run);
    TimesOfStep([], a);
    assert [] + [run] == [run] && [] + [a] == [a];
    assert ([run] + [c])[0].volume != ([a] + [Absorb(b, c)])[0].volume;
  }

  lemma {:induction false} FirstBucketTime(bars: seq<Bar>, w: int)
    requires bars != [] && w > 0 && InOrder(bars)
    ensures BarAggregation.SeqBuckets(bars, w) != []
    ensures BarAggregation.SeqBuckets(bars, w)[0].time == BarAggregation.BucketOf(bars[0].time, w)
  {
    if |bars| > 1 {
      FirstBucketTime(bars[..|bars| - 1], w);
    }
  }

  lemma RunsStart(bars: seq<Bar>, k: int, step: int)
    requires bars != [] && k >= 1
    ensures RunsNonEmpty(bars, k, step) && Summaries(Runs(bars, k, step)) != []
    ensures Summaries(Runs(bars, k, step))[0].time == bars[0].time
  {
    RollupConserves(bars, k, step);
  }
}
