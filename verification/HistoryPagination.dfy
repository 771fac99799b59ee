/** Walking backwards through a broker's history in chunks (`fetch_from_tws_paginated`). */
module HistoryPagination {
  import opened Common
  import opened Bars

  /** The answer to the n-th request of a walk, given its end time; None asks for the newest bars. */
  type Broker = (nat, Option<int>) -> seq<Bar>

  /** `_dedupe_bars`: the last bar of each time, in time order. */
  method DedupeBars(bars: seq<Bar>) returns (rows: seq<Bar>)
    ensures rows == Listing(ByTime(bars))
  {
    if bars == [] {
      return [];
    }
    var deduped: Table := map[];
    for i := 0 to |bars|
      invariant deduped == ByTime(bars[..i])
    {
      assert bars[..i + 1][..i] == bars[..i];
      deduped := deduped[bars[i].time := bars[i]];
    }
    assert bars[..|bars|] == bars;
    rows := Listing(deduped);
  }

  /** The end time of the next request, in whole seconds: one second before the earliest bar seen. */
  function EndBefore(earliest: int): int {
    var ms := if earliest - 1000 < 0 then 0 else earliest - 1000;
    ms - ms % 1000
  }

  /** The latest whole second at least one second before the earliest bar, and never before 1970. */
  lemma EndIsWholeSecond(earliest: int)
    ensures EndBefore(earliest) % 1000 == 0 && EndBefore(earliest) >= 0
    ensures earliest >= 1000 ==> EndBefore(earliest) <= earliest - 1000 < EndBefore(earliest) + 1000
    ensures earliest < 1000 ==> EndBefore(earliest) == 0
  {
  }

  function Concat(batches: seq<seq<Bar>>): seq<Bar> {
    if batches == [] then [] else Concat(batches[..|batches| - 1]) + batches[|batches| - 1]
  }

  /** The earliest times of these batches: `seen_earliest`. */
  function Starts(batches: seq<seq<Bar>>): set<int> {
    if batches == [] then {} else
    var last := batches[|batches| - 1];
    Starts(batches[..|batches| - 1]) + if last == [] then {} else {last[0].time}
  }

  /** The walk goes on after `batch`: it has bars, all later than the cutoff, and starts at a new time. */
  predicate GoesOn(earlier: seq<seq<Bar>>, batch: seq<Bar>, cutoff: int) {
    batch != [] && batch[0].time > cutoff && batch[0].time !in Starts(earlier)
  }

  function NextEnd(earlier: seq<seq<Bar>>): Option<int> {
    if earlier == [] || earlier[|earlier| - 1] == [] then None
    else Some(EndBefore(earlier[|earlier| - 1][0].time))
  }

  /** These batches are the beginning of a walk that has not ended. */
  ghost predicate Ongoing(broker: Broker, cutoff: int, batches: seq<seq<Bar>>) {
    batches == [] ||
    var earlier, last := batches[..|batches| - 1], batches[|batches| - 1];
    Ongoing(broker, cutoff, earlier) && last == broker(|earlier|, NextEnd(earlier)) && GoesOn(earlier, last, cutoff)
  }

  /** The batches of one complete walk: only the last one ends it. */
  ghost predicate IsWalk(broker: Broker, cutoff: int, batches: seq<seq<Bar>>) {
    batches != [] &&
    var earlier, last := batches[..|batches| - 1], batches[|batches| - 1];
    Ongoing(broker, cutoff, earlier) && last == broker(|earlier|, NextEnd(earlier)) && !GoesOn(earlier, last, cutoff)
  }

  lemma {:induction false} StartsFit(broker: Broker, cutoff: int, batches: seq<seq<Bar>>, starts: set<int>)
    requires forall n, end :: broker(n, end) != [] ==> broker(n, end)[0].time in starts
    requires Ongoing(broker, cutoff, batches)
    ensures Starts(batches) <= starts && |Starts(batches)| == |batches| <= |starts|
  {
    if batches != [] {
      StartsFit(broker, cutoff, batches[..|batches| - 1], starts);
      SubsetSize(Starts(batches), starts);
    }
  }

  /** The requests of a walk. Whatever the broker answers, it ends if the times its batches start with come from
      a finite set, after at most one request more than there are such times. */
  method Walk(broker: Broker, cutoff: int, ghost starts: set<int>)
    returns (allBars: seq<Bar>)
    requires forall n, end :: broker(n, end) != [] ==> broker(n, end)[0].time in starts
    ensures exists batches :: IsWalk(broker, cutoff, batches) && |batches| <= |starts| + 1 && allBars == Concat(batches)
  {
    allBars := [];
    ghost var batches: seq<seq<Bar>> := [];
    var end: Option<int> := None;
    var seen: set<int> := {};
    var requests := 0;
    while true
      invariant Ongoing(broker, cutoff, batches)
      invariant allBars == Concat(batches) && requests == |batches| && seen == Starts(batches)
                && end == NextEnd(batches)
      decreases |starts| - |batches|
    {
      StartsFit(broker, cutoff, batches, starts);
      var batch := broker(requests, end);
      ghost var walked := batches + [batch];
      assert walked[..|batches|] == batches;
      if batch == [] {
        batches := walked;
        break;
      }
      allBars := allBars + batch;
      var earliest := batch[0].time;
      if earliest <= cutoff {
        batches := walked;
        break;
      }
      if earliest in seen {
        batches := walked;
        break;
      }
      seen := seen + {earliest};
      end := Some(EndBefore(earliest));
      requests := requests + 1;
      batches := walked;
      StartsFit(broker, cutoff, batches, starts);
    }
  }

  /** What is returned after these batches: each time once, the latest batch's bar, at or after the cutoff. */
  function Returned(batches: seq<seq<Bar>>, cutoff: int): seq<Bar> {
    From(Listing(ByTime(Concat(batches))), cutoff)
  }

  lemma {:induction false} OngoingBefore(broker: Broker, cutoff: int, batches: seq<seq<Bar>>, n: nat)
    requires Ongoing(broker, cutoff, batches) && n <= |batches|
    ensures Ongoing(broker, cutoff, batches[..n])
    ensures n < |batches| ==> GoesOn(batches[..n], batches[n], cutoff)
  {
    if n < |batches| - 1 {
      OngoingBefore(broker, cutoff, batches[..|batches| - 1], n);
      assert batches[..|batches| - 1][..n] == batches[..n];
    } else if n == |batches| {
      assert batches[..n] == batches;
    }
  }

  lemma {:induction false} OngoingUnique(broker: Broker, cutoff: int, a: seq<seq<Bar>>, b: seq<seq<Bar>>)
    requires Ongoing(broker, cutoff, a) && Ongoing(broker, cutoff, b) && |a| == |b|
    ensures a == b
  {
    if a != [] {
      var n := |a| - 1;
      OngoingUnique(broker, cutoff, a[..n], b[..n]);
      assert a == a[..n] + [a[n]] && b == b[..n] + [b[n]];
    }
  }

  /** A broker's answers determine the walk, so they determine what is returned. */
  lemma WalkUnique(broker: Broker, cutoff: int, a: seq<seq<Bar>>, b: seq<seq<Bar>>)
    requires IsWalk(broker, cutoff, a) && IsWalk(broker, cutoff, b) && |a| <= |b|
    ensures a == b
  {
    var m, n := |a| - 1, |b| - 1;
    OngoingBefore(broker, cutoff, b[..n], m);
    assert b[..n][..m] == b[..m];
    OngoingUnique(broker, cutoff, a[..m], b[..m]);
    assert a == a[..m] + [a[m]] && b == b[..n] + [b[n]];
    if m < n { OngoingBefore(broker, cutoff, b[..n], m + 1); }
  }

  /** `fetch_from_tws_paginated` */
  method FetchPaginated(broker: Broker, cutoff: int, ghost starts: set<int>)
    returns (result: seq<Bar>)
    requires forall n, end :: broker(n, end) != [] ==> broker(n, end)[0].time in starts
    ensures exists batches :: IsWalk(broker, cutoff, batches) && result == Returned(batches, cutoff)
  {
    var allBars := Walk(broker, cutoff, starts);
    var rows := DedupeBars(allBars);
    result := [];
    for i := 0 to |rows|
      invariant result == From(rows[..i], cutoff)
    {
      assert rows[..i + 1][..i] == rows[..i];
      if rows[i].time >= cutoff {
        result := result + [rows[i]];
      }
    }
    assert rows[..|rows|] == rows;
  }

  // ---------------------------------------------------------------- an honest broker

  /** The bars of the series in a closed time window. */
  function Window(bars: seq<Bar>, lo: int, hi: int): seq<Bar> {
    if bars == [] then [] else
    var n := |bars| - 1;
    Window(bars[..n], lo, hi) + if lo <= bars[n].time <= hi then [bars[n]] else []
  }

  /** Answers every request with all bars of one fixed series in the chunk that ends at the requested time. */
  function Honest(series: seq<Bar>, now: int, chunk: nat): Broker {
    (n: nat, end: Option<int>) =>
      var hi := if end.Some? then end.value else now;
      Window(series, hi - chunk, hi)
  }

  /** A series as the broker has it: bar times are whole seconds, not negative, increasing, not after now. */
  predicate IsSeries(series: seq<Bar>, now: int) {
    && StrictlyInOrder(series)
    && forall i :: 0 <= i < |series| ==> 0 <= series[i].time <= now && series[i].time % 1000 == 0
  }

  /** The bar after bar `i`, or now, is close enough for the next window to reach bar `i`. */
  predicate Reached(series: seq<Bar>, i: nat, now: int, chunk: nat)
    requires i < |series|
  {
    if i + 1 < |series| then series[i + 1].time - series[i].time <= chunk + 1000 else now - series[i].time <= chunk
  }

  /** No wanted bar lies below a hole wider than the chunk (and the one second the walk steps over). */
  predicate NoWideHole(series: seq<Bar>, cutoff: int, now: int, chunk: nat) {
    forall i :: 0 <= i < |series| && series[i].time >= cutoff ==> Reached(series, i, now, chunk)
  }

  /** Bars `a` to `b` of an ordered series are the ones in the window. */
  predicate IsWindow(series: seq<Bar>, lo: int, hi: int, a: nat, b: nat) {
    && a <= b <= |series|
    && (a > 0 ==> series[a - 1].time < lo)
    && (b < |series| ==> series[b].time > hi)
    && (a < b ==> lo <= series[a].time && series[b - 1].time <= hi)
  }

  /** A window of an ordered series is a stretch of it. */
  lemma {:induction false} WindowIsSlice(series: seq<Bar>, lo: int, hi: int) returns (a: nat, b: nat)
    requires StrictlyInOrder(series) && lo <= hi
    ensures IsWindow(series, lo, hi, a, b) && Window(series, lo, hi) == series[a..b]
  {
    if series == [] {
      a, b := 0, 0;
    } else {
      var n := |series| - 1;
      var prefix, last := series[..n], series[n];
      assert forall i :: 0 <= i < n ==> prefix[i].time < last.time;
      assert prefix + [last] == series;
      a, b := WindowIsSlice(prefix, lo, hi);
      a, b := SliceGrows(prefix, last, lo, hi, a, b);
    }
  }

  lemma SliceGrows(prefix: seq<Bar>, last: Bar, lo: int, hi: int, a: nat, b: nat) returns (a': nat, b': nat)
    requires lo <= hi && IsWindow(prefix, lo, hi, a, b) && Window(prefix, lo, hi) == prefix[a..b]
    requires forall i :: 0 <= i < |prefix| ==> prefix[i].time < last.time
    ensures IsWindow(prefix + [last], lo, hi, a', b') && Window(prefix + [last], lo, hi) == (prefix + [last])[a'..b']
  {
    var n := |prefix| + 1;
    a', b' := if last.time < lo then n else a, if last.time <= hi then n else b;
    WindowBounds(prefix, last, lo, hi, a, b);
    WindowOfAppend(prefix, last, lo, hi, a, b, a', b');
  }

  lemma WindowBounds(prefix: seq<Bar>, last: Bar, lo: int, hi: int, a: nat, b: nat)
    requires lo <= hi && IsWindow(prefix, lo, hi, a, b)
    requires forall i :: 0 <= i < |prefix| ==> prefix[i].time < last.time
    ensures last.time < lo ==> a == b
    ensures lo <= last.time <= hi ==> b == |prefix|
    ensures var n := |prefix| + 1;
            IsWindow(prefix + [last], lo, hi, if last.time < lo then n else a, if last.time <= hi then n else b)
  {
  }

  lemma WindowOfAppend(prefix: seq<Bar>, last: Bar, lo: int, hi: int, a: nat, b: nat, a': nat, b': nat)
    requires a <= b <= |prefix| && Window(prefix, lo, hi) == prefix[a..b] && lo <= hi
    requires a' == (if last.time < lo then |prefix| + 1 else a) && b' == (if last.time <= hi then |prefix| + 1 else b)
    requires last.time < lo ==> a == b
    requires lo <= last.time <= hi ==> b == |prefix|
    ensures Window(prefix + [last], lo, hi) == (prefix + [last])[a'..b']
  {
    assert (prefix + [last])[..|prefix|] == prefix;
    assert Window(prefix + [last], lo, hi) == prefix[a..b] + if lo <= last.time <= hi then [last] else [];
  }

  lemma {:induction false} ByTimeOfConcat(a: seq<Bar>, b: seq<Bar>)
    ensures ByTime(a + b) == ByTime(a) + ByTime(b)
  {
    if b == [] {
      assert a + b == a;
    } else {
      var n := |b| - 1;
      assert (a + b)[..|a| + n] == a + b[..n];
      ByTimeOfConcat(a, b[..n]);
    }
  }

  /** Fetching an older stretch after a newer one collects both, as if fetched in order. */
  lemma OlderStretchJoins(series: seq<Bar>, collected: seq<Bar>, a: nat, b: nat)
    requires StrictlyInOrder(series) && a <= b <= |series|
    requires ByTime(collected) == ByTime(series[b..])
    ensures ByTime(collected + series[a..b]) == ByTime(series[a..])
  {
    ByTimeOfConcat(collected, series[a..b]);
    ByTimeOfConcat(series[a..b], series[b..]);
    assert series[a..b] + series[b..] == series[a..];
    forall t | t in ByTime(series[a..b]) ensures t !in ByTime(series[b..]) {
      var i := KeyHasBar(series[a..b], t);
      if t in ByTime(series[b..]) {
        var j := KeyHasBar(series[b..], t);
      }
    }
  }

  /** Everything from bar `j` on has been reached, bar by bar. */
  predicate AllReached(series: seq<Bar>, j: nat, now: int, chunk: nat) {
    forall i :: j <= i < |series| ==> Reached(series, i, now, chunk)
  }

  /** The end of the next window of a walk that stands at bar `j`. */
  function WindowEnd(series: seq<Bar>, j: nat, now: int): int {
    if j < |series| then series[j].time - 1000 else now
  }

  /** The next batch: the stretch just before bar `j`, as far as one chunk reaches; empty exactly when bar
      `j - 1` does not exist or is out of reach. */
  lemma NextBatch(series: seq<Bar>, now: int, chunk: nat, j: nat) returns (a: nat)
    requires IsSeries(series, now) && j <= |series|
    ensures a <= j
    ensures var end := WindowEnd(series, j, now); Window(series, end - chunk, end) == series[a..j]
    ensures a < j <==> j > 0 && Reached(series, j - 1, now, chunk)
    ensures forall i :: a <= i < j ==> Reached(series, i, now, chunk)
  {
    var end := WindowEnd(series, j, now);
    var b;
    a, b := WindowIsSlice(series, end - chunk, end);
    if j > 0 && j < |series| { WholeSecondsApart(series[j - 1].time, series[j].time); }
  }

  lemma WholeSecondsApart(s: int, t: int)
    requires s < t && s % 1000 == 0 && t % 1000 == 0
    ensures t - s >= 1000
  {
  }

  lemma WindowEndIsNextEnd(earliest: int)
    requires earliest > 0 && earliest % 1000 == 0
    ensures EndBefore(earliest) == earliest - 1000
  {
  }

  /** One more batch of an honest broker, from where the walk stands: it holds the stretch before that. */
  lemma BatchJoins(series: seq<Bar>, now: int, chunk: nat, collected: seq<Bar>, j': nat, batch: seq<Bar>)
    returns (j: nat)
    requires IsSeries(series, now) && j' <= |series| && ByTime(collected) == ByTime(series[j'..])
    requires AllReached(series, j', now, chunk) && batch != [] && batch[0].time > 0
    requires var end := WindowEnd(series, j', now); batch == Window(series, end - chunk, end)
    ensures j < j' && batch == series[j..j'] && ByTime(collected + batch) == ByTime(series[j..])
    ensures AllReached(series, j, now, chunk)
    ensures batch[0] == series[j] && EndBefore(batch[0].time) == series[j].time - 1000
  {
    j := NextBatch(series, now, chunk, j');
    assert batch == series[j..j'] && j < j';
    OlderStretchJoins(series, collected, j, j');
    assert batch[0] == series[j];
    WindowEndIsNextEnd(series[j].time);
  }

  /** What an unfinished walk has collected is the newest part of the series, from bar `j` on. */
  ghost predicate StandsAt(series: seq<Bar>, now: int, chunk: nat, batches: seq<seq<Bar>>, j: nat) {
    && j <= |series| && ByTime(Concat(batches)) == ByTime(series[j..])
    && AllReached(series, j, now, chunk)
    && (var end := WindowEnd(series, j, now);
        Honest(series, now, chunk)(|batches|, NextEnd(batches)) == Window(series, end - chunk, end))
    && forall t :: t in Starts(batches) ==> j < |series| && t >= series[j].time
  }

  lemma StandsNext(series: seq<Bar>, now: int, chunk: nat, earlier: seq<seq<Bar>>, batch: seq<Bar>, j': nat)
    returns (j: nat)
    requires IsSeries(series, now) && StandsAt(series, now, chunk, earlier, j')
    requires batch == Honest(series, now, chunk)(|earlier|, NextEnd(earlier)) && batch != [] && batch[0].time > 0
    ensures StandsAt(series, now, chunk, earlier + [batch], j)
  {
    j := BatchJoins(series, now, chunk, Concat(earlier), j', batch);
    var batches := earlier + [batch];
    assert batches[..|earlier|] == earlier;
    assert Concat(batches) == Concat(earlier) + batch && Starts(batches) == Starts(earlier) + {batch[0].time};
    assert NextEnd(batches) == Some(series[j].time - 1000);
    forall t | t in Starts(earlier) ensures t >= series[j].time { assert series[j].time < series[j'].time; }
  }

  /** Every unfinished walk of an honest broker stands so at some bar. */
  lemma {:induction false} WalkCollects(series: seq<Bar>, now: int, chunk: nat, cutoff: int, batches: seq<seq<Bar>>)
    returns (j: nat)
    requires IsSeries(series, now) && cutoff >= 0
    requires Ongoing(Honest(series, now, chunk), cutoff, batches)
    ensures StandsAt(series, now, chunk, batches, j)
  {
    if batches == [] {
      j := |series|;
      assert series[j..] == [];
    } else {
      var m := |batches| - 1;
      assert GoesOn(batches[..m], batches[m], cutoff);
      var j' := WalkCollects(series, now, chunk, cutoff, batches[..m]);
      j := StandsNext(series, now, chunk, batches[..m], batches[m], j');
      assert batches[..m] + [batches[m]] == batches;
    }
  }

  lemma {:induction false} FromSplits(series: seq<Bar>, a: nat, cutoff: int)
    requires a <= |series|
    ensures From(series, cutoff) == From(series[..a], cutoff) + From(series[a..], cutoff)
  {
    if a == |series| {
      assert series[..a] == series && series[a..] == [];
      assert From(series, cutoff) + [] == From(series, cutoff);
    } else {
      var n := |series| - 1;
      FromSplits(series[..n], a, cutoff);
      assert series[..n][..a] == series[..a] && series[a..][..n - a] == series[..n][a..];
      var last := if series[n].time >= cutoff then [series[n]] else [];
      assert (From(series[..a], cutoff) + From(series[..n][a..], cutoff)) + last
          == From(series[..a], cutoff) + (From(series[..n][a..], cutoff) + last);
    }
  }

  lemma {:induction false} FromEmptyIff(series: seq<Bar>, cutoff: int)
    requires StrictlyInOrder(series)
    ensures From(series, cutoff) == [] <==> (series == [] || series[|series| - 1].time < cutoff)
  {
    if series != [] {
      FromEmptyIff(series[..|series| - 1], cutoff);
    }
  }

  /** A complete walk returns the series' bars at or after the cutoff from some bar `a` on; bar `a - 1` is either
      unwanted or behind a wide hole. */
  lemma WalkReturns(series: seq<Bar>, now: int, chunk: nat, cutoff: int, batches: seq<seq<Bar>>) returns (a: nat)
    requires IsSeries(series, now) && cutoff >= 0
    requires IsWalk(Honest(series, now, chunk), cutoff, batches)
    ensures a <= |series| && Returned(batches, cutoff) == From(series[a..], cutoff)
    ensures AllReached(series, a, now, chunk)
    ensures a == 0 || series[a - 1].time < cutoff || !Reached(series, a - 1, now, chunk)
  {
    var m := |batches| - 1;
    var j := WalkCollects(series, now, chunk, cutoff, batches[..m]);
    a := NextBatch(series, now, chunk, j);
    assert batches[m] == series[a..j];
    OlderStretchJoins(series, Concat(batches[..m]), a, j);
    ListingUnique(series[a..]);
    if a < j { assert batches[m][0] == series[a]; }
  }

  /** From where the walk ends, the bars below are unwanted exactly when there is no wide hole. */
  lemma NothingLeftIff(series: seq<Bar>, now: int, chunk: nat, cutoff: int, a: nat)
    requires StrictlyInOrder(series) && a <= |series| && AllReached(series, a, now, chunk)
    requires a == 0 || series[a - 1].time < cutoff || !Reached(series, a - 1, now, chunk)
    ensures From(series[..a], cutoff) == [] <==> NoWideHole(series, cutoff, now, chunk)
  {
    FromEmptyIff(series[..a], cutoff);
    if a > 0 && series[a - 1].time < cutoff {
      forall i | 0 <= i < a ensures series[i].time < cutoff { assert series[i].time <= series[a - 1].time; }
    }
  }

  /** The exact condition: from an honest broker the walk returns exactly the series' bars at or after the cutoff
      if and only if no wanted bar lies below a wide hole. */
  lemma PaginationExactIffNoWideHole(series: seq<Bar>, now: int, chunk: nat, cutoff: int, batches: seq<seq<Bar>>)
    requires IsSeries(series, now) && cutoff >= 0
    requires IsWalk(Honest(series, now, chunk), cutoff, batches)
    ensures Returned(batches, cutoff) == From(series, cutoff)
            <==> NoWideHole(series, cutoff, now, chunk)
    ensures StrictlyInOrder(Returned(batches, cutoff))
  {
    var a := WalkReturns(series, now, chunk, cutoff, batches);
    FromSplits(series, a, cutoff);
    NothingLeftIff(series, now, chunk, cutoff, a);
    FromKeepsOrder(series[a..], cutoff);
  }
}
