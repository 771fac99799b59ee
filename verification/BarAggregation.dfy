/** Two ways of building larger bars by the clock, and how they relate: `AggregateClock` puts each bar into the bucket
its time falls in (the live refresh loop), `RealtimeRoller` upserts one open aggregate per width (the worker). */
module BarAggregation {
  import opened Common
  import opened Bars

  // ---------------------------------------------------------------- clock buckets

  /** The start of the bucket of width `w` that `t` falls in: `(t // w) * w`, with `//` rounding down. */
  function BucketOf(t: int, w: int): int
    requires w > 0
  {
    t - t % w
  }

  function Starting(key: int, b: Bar): Bar { b.(time := key) }

  /** The dictionary built by `_aggregate_1m`, bar by bar in list order. */
  function Buckets(bars: seq<Bar>, w: int): (table: Table)
    requires w > 0
    ensures WellKeyed(table)
  {
    if bars == [] then map[] else
    var n := |bars| - 1;
    AddToBucket(Buckets(bars[..n], w), bars[n], w)
  }

  function AddToBucket(table: Table, b: Bar, w: int): (table': Table)
    requires w > 0 && WellKeyed(table)
    ensures WellKeyed(table')
  {
    var key := BucketOf(b.time, w);
    table[key := if key in table then Absorb(table[key], b) else Starting(key, b)]
  }

  method AggregateClock(bars: seq<Bar>, w: int) returns (rows: seq<Bar>)
    requires w > 0
    ensures rows == Listing(Buckets(bars, w))
  {
    var buckets: Table := map[];
    for i := 0 to |bars|
      invariant buckets == Buckets(bars[..i], w)
    {
      var b := bars[i];
      var key := (b.time / w) * w;
      assert key == BucketOf(b.time, w);
      assert bars[..i + 1][..i] == bars[..i];
      if key !in buckets {
        buckets := buckets[key := Bar(key, b.open, b.high, b.low, b.close, b.volume)];
      } else {
        var e := buckets[key];
        buckets := buckets[key := Bar(e.time, e.open, Max(e.high, b.high), Min(e.low, b.low), b.close,
            e.volume + b.volume)];
      }
    }
    assert bars[..|bars|] == bars;
    rows := Listing(buckets);
  }

  /** The bars that fall in one bucket, in list order. */
  function InBucket(bars: seq<Bar>, key: int, w: int): seq<Bar>
    requires w > 0
  {
    if bars == [] then [] else
    var n := |bars| - 1;
    InBucket(bars[..n], key, w) + if BucketOf(bars[n].time, w) == key then [bars[n]] else []
  }

  /** A bucket exists exactly when some bar falls in it, and holds first open, highest high, lowest low, last
      close and total volume of those bars. */
  lemma {:induction false} BucketMeaning(bars: seq<Bar>, key: int, w: int)
    requires w > 0
    ensures key in Buckets(bars, w) <==> InBucket(bars, key, w) != []
    ensures key in Buckets(bars, w) ==> Buckets(bars, w)[key] == Summary(key, InBucket(bars, key, w))
  {
    if bars != [] {
      var n := |bars| - 1;
      BucketMeaning(bars[..n], key, w);
      var before := InBucket(bars[..n], key, w);
      assert before + [] == before && [] + [bars[n]] == [bars[n]];
      if BucketOf(bars[n].time, w) == key {
        SummaryOfOne(key, bars[n]);
        if before != [] { SummaryAbsorbs(key, before, bars[n]); }
      }
    }
  }

  // ---------------------------------------------------------------- streaming

  /** The open aggregate of one width and the table it is upserted into. */
  datatype Roll = Roll(current: Option<Bar>, table: Table)

  function Rolled(current: Option<Bar>, bucket: int, b: Bar): Bar {
    if current == None || current.value.time != bucket then Starting(bucket, b) else Absorb(current.value, b)
  }

  function RollStep(r: Roll, b: Bar, w: int): Roll
    requires w > 0
  {
    var key := BucketOf(b.time, w);
    var agg := Rolled(r.current, key, b);
    Roll(Some(agg), r.table[key := agg])
  }

  function RollAll(r: Roll, bars: seq<Bar>, w: int): Roll
    requires w > 0
  {
    if bars == [] then r else RollStep(RollAll(r, bars[..|bars| - 1], w), bars[|bars| - 1], w)
  }

  class RealtimeRoller {
    var rows5s: Table
    var oneMinute: Roll
    var fiveMinutes: Roll
    var fifteenMinutes: Roll

    constructor (t5s: Table, t1: Table, t5: Table, t15: Table)
      ensures rows5s == t5s && oneMinute == Roll(None, t1) && fiveMinutes == Roll(None, t5)
      ensures fifteenMinutes == Roll(None, t15)
    {
      rows5s := t5s;
      oneMinute, fiveMinutes, fifteenMinutes := Roll(None, t1), Roll(None, t5), Roll(None, t15);
    }

    /** `_roll_bar`. If the open aggregate sums up some bars of this bucket, the result sums up those and `b`; if
        there is none or it belongs to another bucket, the result sums up `b` alone. */
    method RollBar(bucket: int, store: Option<Bar>, b: Bar) returns (agg: Bar)
      ensures agg == Rolled(store, bucket, b)
      ensures forall seen: seq<Bar> :: seen != [] && store == Some(Summary(bucket, seen)) ==>
                agg == Summary(bucket, seen + [b])
      ensures store.None? || store.value.time != bucket ==> agg == Summary(bucket, [b])
    {
      SummaryOfOne(bucket, b);
      forall seen: seq<Bar> | seen != [] ensures Summary(bucket, seen + [b]) == Absorb(Summary(bucket, seen), b) {
        SummaryAbsorbs(bucket, seen, b);
      }
      if store == None || store.value.time != bucket {
        agg := Bar(bucket, b.open, b.high, b.low, b.close, b.volume);
      } else {
        agg := store.value;
        agg := agg.(high := Max(agg.high, b.high));
        agg := agg.(low := Min(agg.low, b.low));
        agg := agg.(close := b.close);
        agg := agg.(volume := agg.volume + b.volume);
      }
    }

    /** `on_rt_bar`: one 5-second bar goes into all four tables, replacing what is stored at its keys. */
    method OnRealtimeBar(b: Bar)
      modifies this
      ensures rows5s == old(rows5s)[b.time := b]
      ensures oneMinute == RollStep(old(oneMinute), b, 60_000)
      ensures fiveMinutes == RollStep(old(fiveMinutes), b, 300_000)
      ensures fifteenMinutes == RollStep(old(fifteenMinutes), b, 900_000)
    {
      rows5s := rows5s[b.time := b];
      var m := b.time - b.time % 60_000;
      var bar1 := RollBar(m, oneMinute.current, b);
      oneMinute := Roll(Some(bar1), oneMinute.table[m := bar1]);
      var f := b.time - b.time % 300_000;
      var bar5 := RollBar(f, fiveMinutes.current, b);
      fiveMinutes := Roll(Some(bar5), fiveMinutes.table[f := bar5]);
      var q := b.time - b.time % 900_000;
      var bar15 := RollBar(q, fifteenMinutes.current, b);
      fifteenMinutes := Roll(Some(bar15), fifteenMinutes.table[q := bar15]);
    }
  }

  /** No bucket is entered again after it was left. */
  predicate NoReturn(bars: seq<Bar>, w: int)
    requires w > 0
  {
    forall i, j, k :: 0 <= i < j < k < |bars| && BucketOf(bars[i].time, w) == BucketOf(bars[k].time, w) ==>
      BucketOf(bars[j].time, w) == BucketOf(bars[i].time, w)
  }

  lemma BucketMonotone(a: int, b: int, w: int)
    requires w > 0 && a <= b
    ensures BucketOf(a, w) <= BucketOf(b, w)
  {
    if a / w > b / w {
      MulMonotone(b / w + 1, a / w, w);
    } else {
      MulMonotone(a / w, b / w, w);
    }
  }

  lemma InOrderNeverReturns(bars: seq<Bar>, w: int)
    requires w > 0 && InOrder(bars)
    ensures NoReturn(bars, w)
  {
    forall i, j, k | 0 <= i < j < k < |bars| && BucketOf(bars[i].time, w) == BucketOf(bars[k].time, w)
      ensures BucketOf(bars[j].time, w) == BucketOf(bars[i].time, w)
    {
      BucketMonotone(bars[i].time, bars[j].time, w);
      BucketMonotone(bars[j].time, bars[k].time, w);
    }
  }

  lemma {:induction false} BucketHasBar(bars: seq<Bar>, key: int, w: int) returns (i: nat)
    requires w > 0 && key in Buckets(bars, w)
    ensures i < |bars| && BucketOf(bars[i].time, w) == key
  {
    var n := |bars| - 1;
    if BucketOf(bars[n].time, w) == key {
      i := n;
    } else {
      i := BucketHasBar(bars[..n], key, w);
    }
  }

  lemma {:induction false} BarHasBucket(bars: seq<Bar>, i: nat, w: int)
    requires w > 0 && i < |bars|
    ensures BucketOf(bars[i].time, w) in Buckets(bars, w)
  {
    if i < |bars| - 1 {
      BarHasBucket(bars[..|bars| - 1], i, w);
    }
  }

  /** Bar `n` re-enters a bucket that was left. */
  predicate ReturnsAt(bars: seq<Bar>, n: nat, w: int)
    requires w > 0 && n < |bars|
  {
    && n > 0 && BucketOf(bars[n].time, w) != BucketOf(bars[n - 1].time, w)
    && BucketOf(bars[n].time, w) in Buckets(bars[..n], w)
  }

  /** What that bucket holds by then. */
  function Held(bars: seq<Bar>, n: nat, w: int): Bar
    requires w > 0 && n < |bars| && ReturnsAt(bars, n, w)
  {
    Buckets(bars[..n], w)[BucketOf(bars[n].time, w)]
  }

  /** Starting the bucket again with `b` forgets nothing: same open, no wider range, no volume so far. */
  predicate ForgetsNothing(agg: Bar, b: Bar) {
    agg.open == b.open && b.low <= agg.low && agg.high <= b.high && agg.volume == 0.0
  }

  lemma RestartIsExtension(agg: Bar, b: Bar)
    ensures Starting(agg.time, b) == Absorb(agg, b) <==> ForgetsNothing(agg, b)
  {
  }

  predicate HarmlessReturns(bars: seq<Bar>, w: int)
    requires w > 0
  {
    forall n :: 0 <= n < |bars| && ReturnsAt(bars, n, w) ==> ForgetsNothing(Held(bars, n, w), bars[n])
  }

  lemma PrefixHarmless(bars: seq<Bar>, n: nat, w: int)
    requires w > 0 && n <= |bars| && HarmlessReturns(bars, w)
    ensures HarmlessReturns(bars[..n], w)
  {
    forall m | 0 <= m < n && ReturnsAt(bars[..n], m, w) ensures ForgetsNothing(Held(bars[..n], m, w), bars[..n][m]) {
      assert bars[..n][..m] == bars[..m];
      assert ReturnsAt(bars, m, w);
    }
  }

  /** A series that never returns to a bucket has no returns. */
  lemma NoReturnIsHarmless(bars: seq<Bar>, w: int)
    requires w > 0 && NoReturn(bars, w)
    ensures forall n :: 0 <= n < |bars| ==> !ReturnsAt(bars, n, w)
    ensures HarmlessReturns(bars, w)
  {
    forall n | 0 <= n < |bars| ensures !ReturnsAt(bars, n, w) {
      if ReturnsAt(bars, n, w) {
        var i := BucketHasBar(bars[..n], BucketOf(bars[n].time, w), w);
      }
    }
  }

  /** One step of the roll adds the bar to the batch table, if a restarted bucket forgets nothing. */
  lemma RollStepAgrees(r: Roll, table: Table, buckets: Table, b: Bar, w: int)
    requires w > 0 && WellKeyed(buckets) && r.table == table + buckets
    requires r.current.Some? ==> r.current.value.time in buckets && r.current.value == buckets[r.current.value.time]
    requires var key := BucketOf(b.time, w);
             key in buckets && (r.current.None? || r.current.value.time != key) ==> ForgetsNothing(buckets[key], b)
    ensures var key, next := BucketOf(b.time, w), RollStep(r, b, w);
            next.table == table + AddToBucket(buckets, b, w) && next.current == Some(AddToBucket(buckets, b, w)[key])
  {
    var key := BucketOf(b.time, w);
    if key in buckets { RestartIsExtension(buckets[key], b); }
  }

  /** Streaming refines batch: over any earlier table contents, a stream whose returns are harmless leaves exactly
      the clock-bucket aggregate of the stream, and the open aggregate is the last bar's bucket. */
  lemma {:induction false} StreamingRefinesBatch(table: Table, bars: seq<Bar>, w: int)
    requires w > 0 && HarmlessReturns(bars, w)
    ensures RollAll(Roll(None, table), bars, w).table == table + Buckets(bars, w)
    ensures bars != [] ==>
              var key := BucketOf(bars[|bars| - 1].time, w);
              key in Buckets(bars, w) && RollAll(Roll(None, table), bars, w).current == Some(Buckets(bars, w)[key])
  {
    if bars != [] {
      var n := |bars| - 1;
      PrefixHarmless(bars, n, w);
      StreamingRefinesBatch(table, bars[..n], w);
      assert n > 0 ==> bars[..n][n - 1] == bars[n - 1];
      RollStepAgrees(RollAll(Roll(None, table), bars[..n], w), table, Buckets(bars[..n], w), bars[n], w);
    }
  }

  ghost predicate MatchesAfterEveryBar(bars: seq<Bar>, w: int)
    requires w > 0
  {
    forall n :: 0 <= n <= |bars| ==> RollAll(Roll(None, map[]), bars[..n], w).table == Buckets(bars[..n], w)
  }

  /** At a return the roll starts the bucket again. */
  lemma ReturnRestarts(bars: seq<Bar>, n: nat, w: int)
    requires w > 0 && n < |bars| && ReturnsAt(bars, n, w)
    ensures var key := BucketOf(bars[n].time, w);
            && RollAll(Roll(None, map[]), bars[..n + 1], w).table[key] == Starting(key, bars[n])
            && Buckets(bars[..n + 1], w)[key] == Absorb(Held(bars, n, w), bars[n])
  {
    assert bars[..n + 1][..n] == bars[..n] && bars[..n][..n - 1] == bars[..n - 1];
  }

  /** The exact condition: the streamed table matches the batch aggregate after every bar if and only if every
      return to a bucket that was left forgets nothing. */
  lemma StreamingMatchesIffHarmless(bars: seq<Bar>, w: int)
    requires w > 0
    ensures MatchesAfterEveryBar(bars, w) <==> HarmlessReturns(bars, w)
  {
    if HarmlessReturns(bars, w) {
      forall n | 0 <= n <= |bars|
        ensures RollAll(Roll(None, map[]), bars[..n], w).table == Buckets(bars[..n], w)
      {
        PrefixHarmless(bars, n, w);
        StreamingRefinesBatch(map[], bars[..n], w);
      }
    }
    if MatchesAfterEveryBar(bars, w) {
      forall n | 0 <= n < |bars| && ReturnsAt(bars, n, w) ensures ForgetsNothing(Held(bars, n, w), bars[n]) {
        ReturnRestarts(bars, n, w);
        RestartIsExtension(Held(bars, n, w), bars[n]);
      }
    }
  }

  // ---------------------------------------------------------------- bars that traded

  lemma {:induction false} BucketVolumePositive(bars: seq<Bar>, key: int, w: int)
    requires w > 0 && key in Buckets(bars, w) && forall j :: 0 <= j < |bars| ==> bars[j].volume > 0.0
    ensures Buckets(bars, w)[key].volume > 0.0
  {
    var n := |bars| - 1;
    if key in Buckets(bars[..n], w) {
      BucketVolumePositive(bars[..n], key, w);
    }
  }

  /** A bucket left after bar `i` and occupied again at bar `k` was re-entered in between. */
  lemma {:induction false} FindReturn(bars: seq<Bar>, i: nat, j: nat, k: nat, w: int) returns (n: nat)
    requires w > 0 && i < j < k < |bars|
    requires BucketOf(bars[i].time, w) == BucketOf(bars[k].time, w) != BucketOf(bars[j].time, w)
    ensures n < |bars| && ReturnsAt(bars, n, w)
  {
    if BucketOf(bars[k - 1].time, w) == BucketOf(bars[k].time, w) {
      n := FindReturn(bars, i, j, k - 1, w);
    } else {
      n := k;
      BarHasBucket(bars[..k], i, w);
    }
  }

  lemma ReturnForgetsVolume(bars: seq<Bar>, n: nat, w: int)
    requires w > 0 && n < |bars| && ReturnsAt(bars, n, w) && forall j :: 0 <= j < |bars| ==> bars[j].volume > 0.0
    ensures !HarmlessReturns(bars, w)
  {
    BucketVolumePositive(bars[..n], BucketOf(bars[n].time, w), w);
    assert !ForgetsNothing(Held(bars, n, w), bars[n]);
  }

  /** For bars that traded something: the streamed table matches after every bar if and only if no bucket is entered
      again after it was left. */
  lemma StreamingMatchesIffNoReturn(bars: seq<Bar>, w: int)
    requires w > 0 && forall j :: 0 <= j < |bars| ==> bars[j].volume > 0.0
    ensures MatchesAfterEveryBar(bars, w) <==> NoReturn(bars, w)
  {
    StreamingMatchesIffHarmless(bars, w);
    if NoReturn(bars, w) {
      NoReturnIsHarmless(bars, w);
    } else {
      var i, j, k :| 0 <= i < j < k < |bars| && BucketOf(bars[i].time, w) == BucketOf(bars[k].time, w)
                     && BucketOf(bars[j].time, w) != BucketOf(bars[i].time, w);
      var n := FindReturn(bars, i, j, k, w);
      ReturnForgetsVolume(bars, n, w);
    }
  }

  // ---------------------------------------------------------------- composition

  /** Clock buckets of a series as a series: a bar of the open bucket extends it, any other starts one. */
  function SeqBuckets(bars: seq<Bar>, w: int): seq<Bar>
    requires w > 0
  {
    if bars == [] then [] else
    var n := |bars| - 1;
    AppendBar(SeqBuckets(bars[..n], w), bars[n], w)
  }

  function AppendBar(rows: seq<Bar>, b: Bar, w: int): seq<Bar>
    requires w > 0
  {
    var m := |rows| - 1;
    var key := BucketOf(b.time, w);
    if rows != [] && rows[m].time == key then rows[..m] + [Absorb(rows[m], b)] else rows + [Starting(key, b)]
  }

  lemma {:induction false} SeqBucketsIsTable(bars: seq<Bar>, w: int)
    requires w > 0 && InOrder(bars)
    ensures ByTime(SeqBuckets(bars, w)) == Buckets(bars, w)
    ensures StrictlyInOrder(SeqBuckets(bars, w))
    ensures bars == [] <==> SeqBuckets(bars, w) == []
    ensures bars != [] ==>
              var rows := SeqBuckets(bars, w);
              rows[|rows| - 1].time == BucketOf(bars[|bars| - 1].time, w)
  {
    if bars != [] {
      var n := |bars| - 1;
      SeqBucketsIsTable(bars[..n], w);
      if n > 0 { BucketMonotone(bars[n - 1].time, bars[n].time, w); }
      AppendBarIsTable(SeqBuckets(bars[..n], w), bars[n], w);
    }
  }

  lemma AppendBarIsTable(rows: seq<Bar>, b: Bar, w: int)
    requires w > 0 && StrictlyInOrder(rows) && (rows != [] ==> rows[|rows| - 1].time <= BucketOf(b.time, w))
    ensures StrictlyInOrder(AppendBar(rows, b, w))
    ensures ByTime(AppendBar(rows, b, w)) == AddToBucket(ByTime(rows), b, w)
    ensures var rows' := AppendBar(rows, b, w); rows' != [] && rows'[|rows'| - 1].time == BucketOf(b.time, w)
  {
    var m := |rows| - 1;
    var key := BucketOf(b.time, w);
    if rows != [] && rows[m].time == key {
      ReplaceLast(rows, Absorb(rows[m], b));
    } else {
      AppendLater(rows, Starting(key, b));
    }
  }

  /** What `AggregateClock` returns for a series in time order. */
  lemma AggregateInOrder(bars: seq<Bar>, w: int)
    requires w > 0 && InOrder(bars)
    ensures Listing(Buckets(bars, w)) == SeqBuckets(bars, w)
  {
    SeqBucketsIsTable(bars, w);
    ListingUnique(SeqBuckets(bars, w));
  }

  /** The bucket of width `k * p` that the bucket of width `p` lies in. */
  lemma BucketNests(t: int, p: int, k: int)
    requires p > 0 && k > 0 && k * p > 0
    ensures BucketOf(BucketOf(t, p), k * p) == BucketOf(t, k * p)
  {
    var fine := t / p;
    var coarse, slot := fine / k, fine % k;
    assert BucketOf(t, p) == fine * p;
    assert fine * p == coarse * (k * p) + slot * p by {
      assert fine == coarse * k + slot;
      assert (coarse * k) * p == coarse * (k * p);
    }
    SlotFits(slot, k, p);
    QuotientIs(t, k * p, coarse);
    QuotientIs(fine * p, k * p, coarse);
  }

  lemma SlotFits(slot: int, k: int, p: int)
    requires 0 <= slot < k && p > 0
    ensures 0 <= slot * p && slot * p + p <= k * p
  {
    MulMonotone(slot + 1, k, p);
    MulMonotone(0, slot, p);
  }

  lemma QuotientIs(n: int, d: int, q: int)
    requires d > 0 && q * d <= n < q * d + d
    ensures n - n % d == q * d
  {
    Division(n, d, q, n - q * d);
  }

  lemma CoarseAbsorbs(table: Table, x: Bar, b: Bar, p: int, k: int)
    requires p > 0 && k > 0 && k * p > 0 && WellKeyed(table)
    requires x.time == BucketOf(b.time, p)
    ensures AddToBucket(table, Absorb(x, b), k * p) == AddToBucket(AddToBucket(table, x, k * p), b, k * p)
    ensures AddToBucket(table, Starting(x.time, b), k * p) == AddToBucket(table, b, k * p)
  {
    BucketNests(b.time, p, k);
  }

  lemma {:induction false} SeqBucketsCompose(bars: seq<Bar>, p: int, k: int)
    requires p > 0 && k > 0 && k * p > 0
    ensures Buckets(SeqBuckets(bars, p), k * p) == Buckets(bars, k * p)
  {
    if bars != [] {
      var n := |bars| - 1;
      var rows, b := SeqBuckets(bars[..n], p), bars[n];
      var m := |rows| - 1;
      SeqBucketsCompose(bars[..n], p, k);
      var next := AppendBar(rows, b, p);
      if rows != [] && rows[m].time == BucketOf(b.time, p) {
        assert next[..m] == rows[..m];
        CoarseAbsorbs(Buckets(rows[..m], k * p), rows[m], b, p, k);
      } else {
        assert next[..|rows|] == rows;
        CoarseAbsorbs(Buckets(rows, k * p), Starting(BucketOf(b.time, p), b), b, p, k);
      }
    }
  }

  /** Aggregation composes: for a series in time order, going to width `p` and then to `k * p` gives the same
      bars as going to `k * p` at once. */
  lemma AggregationComposes(bars: seq<Bar>, p: int, k: int)
    requires p > 0 && k > 0 && k * p > 0 && InOrder(bars)
    ensures Listing(Buckets(Listing(Buckets(bars, p)), k * p)) == Listing(Buckets(bars, k * p))
  {
    AggregateInOrder(bars, p);
    SeqBucketsCompose(bars, p, k);
  }

  lemma BucketsOfTwo(b: Bar, c: Bar, w: int)
    requires w > 0
    ensures Buckets([b, c], w) == AddToBucket(map[BucketOf(b.time, w) := Starting(BucketOf(b.time, w), b)], c, w)
  {
    assert [b, c][..1] == [b] && [b][..0] == [];
    assert Buckets([b], w) == AddToBucket(map[], b, w);
  }

  lemma OneBucket(b: Bar, c: Bar, w: int)
    requires w > 0 && BucketOf(b.time, w) == BucketOf(c.time, w)
    ensures BucketOf(b.time, w) in Buckets([b, c], w) && Buckets([b, c], w)[BucketOf(b.time, w)].open == b.open
  {
    BucketsOfTwo(b, c, w);
  }

  lemma ListingOfTwo(early: Bar, late: Bar)
    requires early.time < late.time
    ensures Listing(map[late.time := late][early.time := early]) == [early, late]
  {
    var table := map[late.time := late][early.time := early];
    var one := map[early.time := early];
    assert one == map[][early.time := early];
    ListingAppend(map[], early);
    ListingAppend(one, late);
    assert one[late.time := late] == table;
    assert [] + [early] + [late] == [early, late];
  }

  lemma TwoAlignedBars(early: Bar, late: Bar, w: int)
    requires w > 0 && early.time < late.time
    requires BucketOf(early.time, w) == early.time && BucketOf(late.time, w) == late.time
    ensures Listing(Buckets([late, early], w)) == [early, late]
  {
    BucketsOfTwo(late, early, w);
    ListingOfTwo(early, late);
  }

  /** Order is needed: for two fine bars of one coarse bucket listed later first, the direct route opens at the
      later one's price and the route over fine bars at the earlier one's. */
  lemma CompositionNeedsOrder(early: Bar, late: Bar, p: int, w: int)
    requires p > 0 && w > 0 && early.time < late.time && early.open != late.open
    requires BucketOf(early.time, p) == early.time && BucketOf(late.time, p) == late.time
    requires BucketOf(early.time, w) == BucketOf(late.time, w)
    ensures Listing(Buckets(Listing(Buckets([late, early], p)), w)) != Listing(Buckets([late, early], w))
  {
    TwoAlignedBars(early, late, p);
    OneBucket(early, late, w);
    OneBucket(late, early, w);
    ListingIsTable(Buckets([early, late], w));
    ListingIsTable(Buckets([late, early], w));
  }
}
