/** Price bars, summaries of runs of bars, and tables of bars keyed by time. */
module Bars {
  import opened Common

  /** One OHLCV bar. Prices and volumes are exact numbers: rounding is not part of the model. */
  datatype Bar = Bar(time: int, open: real, high: real, low: real, close: real, volume: real)

  function Max(a: real, b: real): real { if a < b then b else a }

  function Min(a: real, b: real): real { if b < a then b else a }

  // ---------------------------------------------------------------- summaries

  function HighOf(bars: seq<Bar>): real
    requires bars != []
  {
    var n := |bars| - 1;
    if n == 0 then bars[0].high else Max(HighOf(bars[..n]), bars[n].high)
  }

  function LowOf(bars: seq<Bar>): real
    requires bars != []
  {
    var n := |bars| - 1;
    if n == 0 then bars[0].low else Min(LowOf(bars[..n]), bars[n].low)
  }

  function VolumeOf(bars: seq<Bar>): real {
    if bars == [] then 0.0 else VolumeOf(bars[..|bars| - 1]) + bars[|bars| - 1].volume
  }

  /** One bar for a run of bars: first open, highest high, lowest low, last close, total volume. */
  function Summary(time: int, bars: seq<Bar>): Bar
    requires bars != []
  {
    Bar(time, bars[0].open, HighOf(bars), LowOf(bars), bars[|bars| - 1].close, VolumeOf(bars))
  }

  /** The aggregate `agg` after one more bar. */
  function Absorb(agg: Bar, b: Bar): Bar {
    Bar(agg.time, agg.open, Max(agg.high, b.high), Min(agg.low, b.low), b.close, agg.volume + b.volume)
  }

  lemma SummaryOfOne(time: int, b: Bar)
    ensures Summary(time, [b]) == b.(time := time)
  {
    assert VolumeOf([b][..0]) == 0.0;
  }

  lemma SummaryAbsorbs(time: int, bars: seq<Bar>, b: Bar)
    requires bars != []
    ensures Summary(time, bars + [b]) == Absorb(Summary(time, bars), b)
  {
    assert (bars + [b])[..|bars|] == bars;
  }

  /** What a run and its bars have in common, whatever time the summary carries. */
  lemma {:induction false} HighOfConcat(a: seq<Bar>, b: seq<Bar>)
    requires a != [] && b != []
    ensures HighOf(a + b) == Max(HighOf(a), HighOf(b))
    ensures LowOf(a + b) == Min(LowOf(a), LowOf(b))
  {
    var n := |b| - 1;
    assert (a + b)[..|a| + n] == a + b[..n];
    if n == 0 {
      assert a + b[..n] == a;
    } else {
      HighOfConcat(a, b[..n]);
    }
  }

  /** The highest high is reached and not passed; so is the lowest low. */
  lemma {:induction false} EnvelopeIsTight(bars: seq<Bar>) returns (top: nat, bottom: nat)
    requires bars != []
    ensures top < |bars| && bars[top].high == HighOf(bars) && bottom < |bars| && bars[bottom].low == LowOf(bars)
    ensures forall i :: 0 <= i < |bars| ==> bars[i].high <= HighOf(bars) && LowOf(bars) <= bars[i].low
  {
    var n := |bars| - 1;
    if n == 0 {
      top, bottom := 0, 0;
    } else {
      top, bottom := EnvelopeIsTight(bars[..n]);
      if HighOf(bars[..n]) < bars[n].high { top := n; }
      if bars[n].low < LowOf(bars[..n]) { bottom := n; }
    }
  }

  lemma {:induction false} VolumeOfConcat(a: seq<Bar>, b: seq<Bar>)
    ensures VolumeOf(a + b) == VolumeOf(a) + VolumeOf(b)
  {
    if b == [] {
      assert a + b == a;
    } else {
      var n := |b| - 1;
      assert (a + b)[..|a| + n] == a + b[..n];
      VolumeOfConcat(a, b[..n]);
    }
  }

  // ---------------------------------------------------------------- tables keyed by time

  type Table = map<int, Bar>

  predicate InOrder(bars: seq<Bar>) {
    forall i, j :: 0 <= i < j < |bars| ==> bars[i].time <= bars[j].time
  }

  predicate StrictlyInOrder(bars: seq<Bar>) {
    forall i, j :: 0 <= i < j < |bars| ==> bars[i].time < bars[j].time
  }

  /** Every row is stored under its own time. */
  predicate WellKeyed(table: Table) {
    forall t :: t in table ==> table[t].time == t
  }

  /** The bars by time, the last one of each time winning. */
  function ByTime(bars: seq<Bar>): (table: Table)
    ensures WellKeyed(table)
  {
    if bars == [] then map[] else ByTime(bars[..|bars| - 1])[bars[|bars| - 1].time := bars[|bars| - 1]]
  }

  lemma {:induction false} MaxExists(s: set<int>)
    requires s != {}
    ensures exists m :: m in s && forall x :: x in s ==> x <= m
  {
    var k := AnyElement(s);
    var rest := s - {k};
    if rest == {} {
      forall x | x in s ensures x <= k { assert x == k || x in rest; }
    } else {
      MaxExists(rest);
      var m :| m in rest && forall x :: x in rest ==> x <= m;
      var top := if k <= m then m else k;
      forall x | x in s ensures x <= top { assert x == k || x in rest; }
      assert top in s;
    }
  }

  function MaxOf(s: set<int>): (m: int)
    requires s != {}
    ensures m in s && forall x :: x in s ==> x <= m
  {
    MaxExists(s);
    var m :| m in s && forall x :: x in s ==> x <= m;
    m
  }

  lemma ByTimeOfAppend(bars: seq<Bar>, b: Bar)
    ensures ByTime(bars + [b]) == ByTime(bars)[b.time := b]
  {
    assert (bars + [b])[..|bars|] == bars;
  }

  /** `sorted(table.values(), key=time)` */
  function Listing(table: Table): seq<Bar>
    requires WellKeyed(table)
    decreases |table.Keys|
  {
    if table.Keys == {} then [] else
    var last := MaxOf(table.Keys);
    Listing(table - {last}) + [table[last]]
  }

  lemma {:induction false} BarsAreKeys(bars: seq<Bar>, i: nat)
    requires i < |bars|
    ensures bars[i].time in ByTime(bars)
  {
    if i < |bars| - 1 {
      BarsAreKeys(bars[..|bars| - 1], i);
    }
  }

  lemma {:induction false} KeyHasBar(bars: seq<Bar>, t: int) returns (i: nat)
    requires t in ByTime(bars)
    ensures i < |bars| && bars[i].time == t && bars[i] == ByTime(bars)[t]
  {
    var n := |bars| - 1;
    if bars[n].time == t {
      i := n;
    } else {
      i := KeyHasBar(bars[..n], t);
    }
  }

  lemma {:induction false} ListingIsTable(table: Table)
    requires WellKeyed(table)
    ensures ByTime(Listing(table)) == table
    ensures StrictlyInOrder(Listing(table))
    decreases |table.Keys|
  {
    if table.Keys != {} {
      var last := MaxOf(table.Keys);
      var rest := table - {last};
      var rows := Listing(rest);
      ListingIsTable(rest);
      ByTimeOfAppend(rows, table[last]);
      assert rest[last := table[last]] == table;
      forall i | 0 <= i < |rows| ensures rows[i].time < last {
        BarsAreKeys(rows, i);
        assert rows[i].time in rest;
      }
    }
  }

  /** A row later than all others is listed last. */
  lemma ListingAppend(table: Table, b: Bar)
    requires WellKeyed(table) && forall t :: t in table ==> t < b.time
    ensures Listing(table[b.time := b]) == Listing(table) + [b]
  {
    var longer := table[b.time := b];
    assert b.time in longer.Keys;
    assert longer - {b.time} == table;
    assert MaxOf(longer.Keys) == b.time;
  }

  /** A strictly ordered series is the only listing of its own table. */
  lemma {:induction false} ListingUnique(rows: seq<Bar>)
    requires StrictlyInOrder(rows)
    ensures Listing(ByTime(rows)) == rows
  {
    if rows != [] {
      var n := |rows| - 1;
      ListingUnique(rows[..n]);
      forall t | t in ByTime(rows[..n]) ensures t < rows[n].time {
        var i := KeyHasBar(rows[..n], t);
      }
      ListingAppend(ByTime(rows[..n]), rows[n]);
      assert rows == rows[..n] + [rows[n]];
    }
  }

  lemma ReplaceLast(rows: seq<Bar>, b: Bar)
    requires StrictlyInOrder(rows) && rows != [] && rows[|rows| - 1].time == b.time
    ensures var rows' := rows[..|rows| - 1] + [b];
            StrictlyInOrder(rows') && ByTime(rows') == ByTime(rows)[b.time := b]
    ensures ByTime(rows)[b.time] == rows[|rows| - 1]
  {
    ByTimeOfAppend(rows[..|rows| - 1], b);
  }

  lemma LaterInOrder(rows: seq<Bar>, b: Bar)
    requires StrictlyInOrder(rows) && (rows != [] ==> rows[|rows| - 1].time < b.time)
    ensures StrictlyInOrder(rows + [b]) && forall i :: 0 <= i < |rows| ==> rows[i].time < b.time
  {
    forall i | 0 <= i < |rows| ensures rows[i].time < b.time { assert rows[i].time <= rows[|rows| - 1].time; }
  }

  lemma AppendLater(rows: seq<Bar>, b: Bar)
    requires StrictlyInOrder(rows) && (rows != [] ==> rows[|rows| - 1].time < b.time)
    ensures StrictlyInOrder(rows + [b]) && ByTime(rows + [b]) == ByTime(rows)[b.time := b]
    ensures b.time !in ByTime(rows)
  {
    LaterInOrder(rows, b);
    ByTimeOfAppend(rows, b);
    if b.time in ByTime(rows) { var i := KeyHasBar(rows, b.time); }
  }

  /** The bars at or after the cutoff. */
  function From(bars: seq<Bar>, cutoff: int): seq<Bar> {
    if bars == [] then [] else
    var n := |bars| - 1;
    From(bars[..n], cutoff) + if bars[n].time >= cutoff then [bars[n]] else []
  }

  /** Exactly the bars at or after the cutoff, as often as they occur. */
  lemma {:induction false} FromMeaning(bars: seq<Bar>, cutoff: int, b: Bar)
    ensures multiset(From(bars, cutoff))[b] == if b.time >= cutoff then multiset(bars)[b] else 0
  {
    if bars != [] {
      var n := |bars| - 1;
      FromMeaning(bars[..n], cutoff, b);
      assert bars == bars[..n] + [bars[n]];
    }
  }

  lemma {:induction false} FromKeepsOrder(series: seq<Bar>, cutoff: int)
    requires StrictlyInOrder(series)
    ensures StrictlyInOrder(From(series, cutoff))
    ensures forall i :: 0 <= i < |From(series, cutoff)| ==>
              From(series, cutoff)[i].time >= cutoff && From(series, cutoff)[i].time <= series[|series| - 1].time
  {
    if series != [] {
      var n := |series| - 1;
      FromKeepsOrder(series[..n], cutoff);
    }
  }
}
