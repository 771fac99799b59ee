/** The stored price history: writes with source precedence, and the daily view with its gaps filled. */
module HistoricalCache {
  import opened Common
  import opened Bars
  import BarAggregation

  const MS_PER_DAY := 86_400_000

  /** `_normalize_daily_ts`: midnight UTC of the day. */
  function DayOf(t: int): int { BarAggregation.BucketOf(t, MS_PER_DAY) }

  function AtMidnight(b: Bar): Bar { b.(time := DayOf(b.time)) }

  // ---------------------------------------------------------------- writes

  /** One row written: TWS rows replace, rows of other providers only fill gaps. */
  datatype Entry = Entry(fromTws: bool, bar: Bar)

  function Put(table: Table, e: Entry): Table {
    if e.fromTws || e.bar.time !in table then table[e.bar.time := e.bar] else table
  }

  function Stored(table: Table, entries: seq<Entry>): Table {
    if entries == [] then table else Put(Stored(table, entries[..|entries| - 1]), entries[|entries| - 1])
  }

  /** The rows of one `_write_bars` call; daily and weekly bars are moved to midnight first. */
  function EntriesOf(bars: seq<Bar>, daily: bool, fromTws: bool): seq<Entry> {
    if bars == [] then [] else
    var b := bars[|bars| - 1];
    EntriesOf(bars[..|bars| - 1], daily, fromTws) + [Entry(fromTws, if daily then AtMidnight(b) else b)]
  }

  function LastFromTws(entries: seq<Entry>, t: int): Option<Bar> {
    if entries == [] then None else
    var e := entries[|entries| - 1];
    if e.fromTws && e.bar.time == t then Some(e.bar) else LastFromTws(entries[..|entries| - 1], t)
  }

  function FirstWritten(entries: seq<Entry>, t: int): Option<Bar> {
    if entries == [] then None
    else if entries[0].bar.time == t then Some(entries[0].bar)
    else FirstWritten(entries[1..], t)
  }

  lemma {:induction false} FirstOfAppend(entries: seq<Entry>, e: Entry, t: int)
    ensures FirstWritten(entries + [e], t) ==
            if FirstWritten(entries, t).Some? then FirstWritten(entries, t)
            else if e.bar.time == t then Some(e.bar) else None
  {
    if entries == [] {
      assert (entries + [e])[1..] == [];
    } else {
      assert (entries + [e])[1..] == entries[1..] + [e];
      FirstOfAppend(entries[1..], e, t);
    }
  }

  /** Source precedence: after any writes into an empty table, the row stored for a time is the last TWS row
      written for it, or else the first row any other provider wrote. */
  lemma {:induction false} PrecedenceHolds(entries: seq<Entry>, t: int)
    ensures t in Stored(map[], entries) <==> FirstWritten(entries, t).Some?
    ensures t in Stored(map[], entries) ==>
              Some(Stored(map[], entries)[t]) ==
              if LastFromTws(entries, t).Some? then LastFromTws(entries, t) else FirstWritten(entries, t)
    ensures LastFromTws(entries, t).Some? ==> FirstWritten(entries, t).Some?
  {
    if entries != [] {
      var n := |entries| - 1;
      PrecedenceHolds(entries[..n], t);
      FirstOfAppend(entries[..n], entries[n], t);
      assert entries[..n] + [entries[n]] == entries;
    }
  }

  lemma {:induction false} StoredConcat(table: Table, a: seq<Entry>, b: seq<Entry>)
    ensures Stored(table, a + b) == Stored(Stored(table, a), b)
  {
    if b == [] {
      assert a + b == a;
    } else {
      var n := |b| - 1;
      assert (a + b)[..|a| + n] == a + b[..n];
      StoredConcat(table, a, b[..n]);
    }
  }

  lemma {:induction false} StoredWellKeyed(table: Table, entries: seq<Entry>)
    requires WellKeyed(table)
    ensures WellKeyed(Stored(table, entries))
  {
    if entries != [] { StoredWellKeyed(table, entries[..|entries| - 1]); }
  }

  // ---------------------------------------------------------------- whole runs of writes

  /** One `_write_bars` call. */
  datatype Write = Write(bars: seq<Bar>, intoDaily: bool, fromTws: bool)

  datatype Tables = Tables(daily: Table, minutes: Table)
  {
    predicate WellKept() { WellKeyed(daily) && WellKeyed(minutes) }
  }

  /** No daily row is stored under a time within the day; only rows from before times were normalised are. */
  predicate AtMidnights(daily: Table) {
    forall t :: t in daily ==> DayOf(t) == t
  }

  function Written(tables: Tables, w: Write): Tables {
    if w.intoDaily then tables.(daily := Stored(tables.daily, EntriesOf(w.bars, true, w.fromTws)))
    else tables.(minutes := Stored(tables.minutes, EntriesOf(w.bars, false, w.fromTws)))
  }

  function PutInto(tables: Tables, e: Entry, daily: bool): Tables {
    if daily then tables.(daily := Put(tables.daily, e)) else tables.(minutes := Put(tables.minutes, e))
  }

  /** A call with one more row does what the shorter call does, and then writes that row. */
  lemma WrittenRow(tables: Tables, bars: seq<Bar>, b: Bar, daily: bool, fromTws: bool)
    ensures Written(tables, Write(bars + [b], daily, fromTws)) ==
            PutInto(Written(tables, Write(bars, daily, fromTws)), Entry(fromTws, if daily then AtMidnight(b) else b),
                daily)
  {
    var e := Entry(fromTws, if daily then AtMidnight(b) else b);
    var earlier := EntriesOf(bars, daily, fromTws);
    assert (bars + [b])[..|bars|] == bars && (earlier + [e])[..|earlier|] == earlier;
  }

  /** The tables after these calls, in order, from empty ones. */
  function AllWritten(writes: seq<Write>): Tables {
    if writes == [] then Tables(map[], map[]) else Written(AllWritten(writes[..|writes| - 1]), writes[|writes| - 1])
  }

  /** All rows the calls wrote into one of the tables, in order. */
  function EntriesInto(writes: seq<Write>, daily: bool): seq<Entry> {
    if writes == [] then [] else
    var w := writes[|writes| - 1];
    EntriesInto(writes[..|writes| - 1], daily)
    + if w.intoDaily == daily then EntriesOf(w.bars, daily, w.fromTws) else []
  }

  lemma {:induction false} AllWrittenStored(writes: seq<Write>)
    ensures AllWritten(writes).daily == Stored(map[], EntriesInto(writes, true))
    ensures AllWritten(writes).minutes == Stored(map[], EntriesInto(writes, false))
  {
    if writes != [] {
      var n := |writes| - 1;
      var w := writes[n];
      AllWrittenStored(writes[..n]);
      StoredConcat(map[], EntriesInto(writes[..n], w.intoDaily), EntriesOf(w.bars, w.intoDaily, w.fromTws));
      assert EntriesInto(writes[..n], !w.intoDaily) + [] == EntriesInto(writes[..n], !w.intoDaily);
    }
  }

  lemma {:induction false} StoredAtMidnights(table: Table, bars: seq<Bar>, fromTws: bool)
    requires AtMidnights(table)
    ensures AtMidnights(Stored(table, EntriesOf(bars, true, fromTws)))
  {
    if bars != [] {
      var n := |bars| - 1;
      StoredAtMidnights(table, bars[..n], fromTws);
      var earlier, e := EntriesOf(bars[..n], true, fromTws), Entry(fromTws, AtMidnight(bars[n]));
      assert (earlier + [e])[..|earlier|] == earlier;
      MidnightIsMidnight(bars[n].time);
    }
  }

  /** A call keeps rows under their own times, and daily rows at midnight. */
  lemma WrittenKeeps(tables: Tables, w: Write)
    requires tables.WellKept()
    ensures Written(tables, w).WellKept()
    ensures AtMidnights(tables.daily) ==> AtMidnights(Written(tables, w).daily)
  {
    StoredWellKeyed(tables.daily, EntriesOf(w.bars, true, w.fromTws));
    StoredWellKeyed(tables.minutes, EntriesOf(w.bars, false, w.fromTws));
    if AtMidnights(tables.daily) { StoredAtMidnights(tables.daily, w.bars, w.fromTws); }
  }

  lemma {:induction false} AllWrittenKeeps(writes: seq<Write>)
    ensures AllWritten(writes).WellKept() && AtMidnights(AllWritten(writes).daily)
  {
    if writes != [] {
      AllWrittenKeeps(writes[..|writes| - 1]);
      WrittenKeeps(AllWritten(writes[..|writes| - 1]), writes[|writes| - 1]);
    }
  }

  // ---------------------------------------------------------------- the daily view

  function Normalized(bars: seq<Bar>): seq<Bar> {
    if bars == [] then [] else Normalized(bars[..|bars| - 1]) + [AtMidnight(bars[|bars| - 1])]
  }

  /** Days with a stored daily row at or after the cutoff, with the latest such row. */
  function NativeDays(daily: Table, cutoff: int): Table
    requires WellKeyed(daily)
  {
    ByTime(Normalized(From(Listing(daily), cutoff)))
  }

  function NotOnDays(bars: seq<Bar>, days: set<int>): seq<Bar> {
    if bars == [] then [] else
    var b := bars[|bars| - 1];
    NotOnDays(bars[..|bars| - 1], days) + if DayOf(b.time) in days then [] else [b]
  }

  /** The other days with one-minute rows at or after the cutoff, folded. */
  function FilledDays(daily: Table, minutes: Table, cutoff: int): (table: Table)
    requires WellKeyed(daily) && WellKeyed(minutes)
    ensures WellKeyed(table)
  {
    BarAggregation.Buckets(NotOnDays(From(Listing(minutes), cutoff), NativeDays(daily, cutoff).Keys), MS_PER_DAY)
  }

  function DailyView(daily: Table, minutes: Table, cutoff: int): (table: Table)
    requires WellKeyed(daily) && WellKeyed(minutes)
    ensures WellKeyed(table)
  {
    NativeDays(daily, cutoff) + FilledDays(daily, minutes, cutoff)
  }

  class HistoryStore {
    var daily: Table
    var minutes: Table

    constructor ()
      ensures Now() == AllWritten([]) && Valid()
    {
      daily, minutes := map[], map[];
    }

    function Now(): Tables
      reads this
    {
      Tables(daily, minutes)
    }

    predicate Valid()
      reads this
    {
      Now().WellKept()
    }

    /** `_write_bars` for one series: row by row, replacing for TWS and filling gaps for anyone else. */
    method WriteBars(bars: seq<Bar>, intoDaily: bool, fromTws: bool)
      requires Valid()
      modifies this
      ensures Now() == Written(old(Now()), Write(bars, intoDaily, fromTws))
      ensures Valid() && (old(AtMidnights(daily)) ==> AtMidnights(daily))
    {
      ghost var before := Now();
      WrittenKeeps(before, Write(bars, intoDaily, fromTws));
      for i := 0 to |bars|
        invariant Now() == Written(before, Write(bars[..i], intoDaily, fromTws))
      {
        WrittenRow(before, bars[..i], bars[i], intoDaily, fromTws);
        assert bars[..i + 1] == bars[..i] + [bars[i]];
        PutRow(if intoDaily then AtMidnight(bars[i]) else bars[i], intoDaily, fromTws);
      }
      assert bars[..|bars|] == bars;
    }

    /** INSERT OR REPLACE for TWS, INSERT OR IGNORE for anyone else. */
    method PutRow(row: Bar, intoDaily: bool, fromTws: bool)
      modifies this
      ensures Now() == PutInto(old(Now()), Entry(fromTws, row), intoDaily)
    {
      if intoDaily {
        if fromTws || row.time !in daily { daily := daily[row.time := row]; }
      } else {
        if fromTws || row.time !in minutes { minutes := minutes[row.time := row]; }
      }
    }

    /** `_read_cached` for daily bars. */
    method ReadDaily(cutoff: int) returns (result: seq<Bar>)
      requires Valid()
      ensures result == Listing(DailyView(daily, minutes, cutoff))
    {
      var rows := SelectFrom(daily, cutoff);
      var native := NormalizeAndDedupe(rows);
      result := FillGapsFromMinutes(native, cutoff);
    }

    /** SELECT ... WHERE ts >= cutoff ORDER BY ts */
    method SelectFrom(table: Table, cutoff: int) returns (rows: seq<Bar>)
      requires WellKeyed(table)
      ensures rows == From(Listing(table), cutoff)
    {
      rows := From(Listing(table), cutoff);
    }

    method NormalizeAndDedupe(rows: seq<Bar>) returns (bars: seq<Bar>)
      ensures bars == Listing(ByTime(Normalized(rows)))
    {
      var deduped: Table := map[];
      for i := 0 to |rows|
        invariant deduped == ByTime(Normalized(rows[..i]))
      {
        assert rows[..i + 1][..i] == rows[..i];
        ByTimeOfAppend(Normalized(rows[..i]), AtMidnight(rows[i]));
        var b := AtMidnight(rows[i]);
        deduped := deduped[b.time := b];
      }
      assert rows[..|rows|] == rows;
      bars := Listing(deduped);
    }

    /** Folds the rows of days that have no native bar, in time order. */
    method FoldDays(rows: seq<Bar>, existing: set<int>) returns (dayData: Table)
      ensures dayData == BarAggregation.Buckets(NotOnDays(rows, existing), MS_PER_DAY)
    {
      dayData := map[];
      for i := 0 to |rows|
        invariant dayData == BarAggregation.Buckets(NotOnDays(rows[..i], existing), MS_PER_DAY)
      {
        assert rows[..i + 1][..i] == rows[..i];
        var b := rows[i];
        ghost var before := NotOnDays(rows[..i], existing);
        assert (before + [b])[..|before|] == before && before + [] == before;
        var day := DayOf(b.time);
        if day in existing {
          continue;
        }
        if day !in dayData {
          dayData := dayData[day := Bar(day, b.open, b.high, b.low, b.close, b.volume)];
        } else {
          var d := dayData[day];
          dayData := dayData[day := Bar(d.time, d.open, Max(d.high, b.high), Min(d.low, b.low), b.close,
              d.volume + b.volume)];
        }
      }
      assert rows[..|rows|] == rows;
    }

    /** `_fill_daily_gaps_from_1m` */
    method FillGapsFromMinutes(native: seq<Bar>, cutoff: int) returns (merged: seq<Bar>)
      requires Valid()
      requires native == Listing(NativeDays(daily, cutoff))
      ensures merged == Listing(DailyView(daily, minutes, cutoff))
    {
      var existing := set b | b in native :: DayOf(b.time);
      ExistingDays(daily, cutoff);
      var rows := SelectFrom(minutes, cutoff);
      var dayData := FoldDays(rows, existing);
      ListingIsTable(NativeDays(daily, cutoff));
      if dayData == map[] {
        AddNothing(NativeDays(daily, cutoff), dayData);
        return native;
      }
      merged := Listing(ByTime(native) + dayData);
    }
  }

  lemma AddNothing(table: Table, nothing: Table)
    requires nothing == map[]
    ensures table + nothing == table
  {
  }

  /** The days already covered are the keys of the native table. */
  lemma ExistingDays(daily: Table, cutoff: int)
    requires WellKeyed(daily)
    ensures (set b | b in Listing(NativeDays(daily, cutoff)) :: DayOf(b.time)) == NativeDays(daily, cutoff).Keys
  {
    var native := NativeDays(daily, cutoff);
    var rows := Listing(native);
    ListingIsTable(native);
    forall b | b in rows ensures DayOf(b.time) in native && DayOf(b.time) == b.time {
      var i :| 0 <= i < |rows| && rows[i] == b;
      BarsAreKeys(rows, i);
      NormalizedAtMidnight(From(Listing(daily), cutoff), b.time);
    }
    forall d | d in native ensures exists b :: b in rows && DayOf(b.time) == d {
      var i := KeyHasBar(rows, d);
      NormalizedAtMidnight(From(Listing(daily), cutoff), d);
      assert rows[i] in rows && DayOf(rows[i].time) == d;
    }
  }

  lemma {:induction false} NormalizedAtMidnight(bars: seq<Bar>, d: int)
    requires d in ByTime(Normalized(bars))
    ensures DayOf(d) == d && exists i :: 0 <= i < |bars| && DayOf(bars[i].time) == d
  {
    var n := |bars| - 1;
    var before := Normalized(bars[..n]);
    ByTimeOfAppend(before, AtMidnight(bars[n]));
    MidnightIsMidnight(bars[n].time);
    if DayOf(bars[n].time) != d {
      NormalizedAtMidnight(bars[..n], d);
      var i :| 0 <= i < n && DayOf(bars[..n][i].time) == d;
      assert DayOf(bars[i].time) == d;
    }
  }

  lemma MidnightIsMidnight(t: int)
    ensures DayOf(DayOf(t)) == DayOf(t)
  {
  }

  // ---------------------------------------------------------------- what the view shows

  /** The stored daily rows of one day at or after the cutoff, in time order. */
  function DailyRowsOn(daily: Table, cutoff: int, day: int): seq<Bar>
    requires WellKeyed(daily)
  {
    BarAggregation.InBucket(From(Listing(daily), cutoff), day, MS_PER_DAY)
  }

  function MinuteRowsOn(minutes: Table, cutoff: int, day: int): seq<Bar>
    requires WellKeyed(minutes)
  {
    BarAggregation.InBucket(From(Listing(minutes), cutoff), day, MS_PER_DAY)
  }

  lemma {:induction false} NativeDayIsLastRow(rows: seq<Bar>, day: int)
    ensures day in ByTime(Normalized(rows)) <==> BarAggregation.InBucket(rows, day, MS_PER_DAY) != []
    ensures day in ByTime(Normalized(rows)) ==>
              var on := BarAggregation.InBucket(rows, day, MS_PER_DAY);
              ByTime(Normalized(rows))[day] == AtMidnight(on[|on| - 1])
  {
    if rows != [] {
      var n := |rows| - 1;
      NativeDayIsLastRow(rows[..n], day);
      ByTimeOfAppend(Normalized(rows[..n]), AtMidnight(rows[n]));
      var before := BarAggregation.InBucket(rows[..n], day, MS_PER_DAY);
      assert before + [] == before;
    }
  }

  lemma {:induction false} FilteredDay(rows: seq<Bar>, days: set<int>, day: int)
    ensures BarAggregation.InBucket(NotOnDays(rows, days), day, MS_PER_DAY)
            == if day in days then [] else BarAggregation.InBucket(rows, day, MS_PER_DAY)
  {
    if rows != [] {
      var n := |rows| - 1;
      FilteredDay(rows[..n], days, day);
      var before := NotOnDays(rows[..n], days);
      assert (before + [rows[n]])[..|before|] == before && before + [] == before;
      assert BarAggregation.InBucket(rows[..n], day, MS_PER_DAY) + []
             == BarAggregation.InBucket(rows[..n], day, MS_PER_DAY);
      assert BarAggregation.InBucket(before, day, MS_PER_DAY) + [] == BarAggregation.InBucket(before, day, MS_PER_DAY);
    }
  }

  /** The daily read: a day with a native row in range shows the last such row, unchanged but for its time; any
      other day shows the fold of its one-minute rows in range; a day with neither is absent. */
  lemma DailyViewMeaning(daily: Table, minutes: Table, cutoff: int, day: int)
    requires WellKeyed(daily) && WellKeyed(minutes)
    ensures var native, filling := DailyRowsOn(daily, cutoff, day), MinuteRowsOn(minutes, cutoff, day);
            var view := DailyView(daily, minutes, cutoff);
            && (day in view <==> native != [] || filling != [])
            && (native != [] ==> view[day] == AtMidnight(native[|native| - 1]))
            && (native == [] && filling != [] ==> view[day] == Summary(day, filling))
  {
    var rows := From(Listing(minutes), cutoff);
    var days := NativeDays(daily, cutoff).Keys;
    NativeDayIsLastRow(From(Listing(daily), cutoff), day);
    FilteredDay(rows, days, day);
    BarAggregation.BucketMeaning(NotOnDays(rows, days), day, MS_PER_DAY);
  }

  /** The daily read is strictly increasing, with at most one bar per UTC day, each at midnight. */
  lemma DailyReadOrdered(daily: Table, minutes: Table, cutoff: int)
    requires WellKeyed(daily) && WellKeyed(minutes)
    ensures var result := Listing(DailyView(daily, minutes, cutoff));
            StrictlyInOrder(result) && forall i :: 0 <= i < |result| ==> DayOf(result[i].time) == result[i].time
  {
    var view := DailyView(daily, minutes, cutoff);
    var result := Listing(view);
    ListingIsTable(view);
    forall i | 0 <= i < |result| ensures DayOf(result[i].time) == result[i].time {
      BarsAreKeys(result, i);
      if result[i].time in NativeDays(daily, cutoff) {
        NormalizedAtMidnight(From(Listing(daily), cutoff), result[i].time);
      } else {
        var rows := NotOnDays(From(Listing(minutes), cutoff), NativeDays(daily, cutoff).Keys);
        var j := BarAggregation.BucketHasBar(rows, result[i].time, MS_PER_DAY);
        MidnightIsMidnight(rows[j].time);
      }
    }
  }

  lemma {:induction false} NothingFrom(rows: seq<Bar>, cutoff: int)
    requires forall i :: 0 <= i < |rows| ==> rows[i].time < cutoff
    ensures From(rows, cutoff) == []
  {
    if rows != [] { NothingFrom(rows[..|rows| - 1], cutoff); }
  }

  /** The last row of a day is in range exactly when the day has a row in range, and is then the last one. */
  lemma {:induction false} LastRowOfDay(rows: seq<Bar>, cutoff: int, i: nat)
    requires StrictlyInOrder(rows) && i < |rows|
    requires forall j :: i < j < |rows| ==> DayOf(rows[j].time) != DayOf(rows[i].time)
    ensures var on := BarAggregation.InBucket(From(rows, cutoff), DayOf(rows[i].time), MS_PER_DAY);
            if rows[i].time >= cutoff then on != [] && on[|on| - 1] == rows[i] else on == []
  {
    var n := |rows| - 1;
    var before := From(rows[..n], cutoff);
    assert before + [] == before && (before + [rows[n]])[..|before|] == before;
    if i < n {
      LastRowOfDay(rows[..n], cutoff, i);
      var on := BarAggregation.InBucket(before, DayOf(rows[i].time), MS_PER_DAY);
      assert on + [] == on;
    } else if rows[i].time < cutoff {
      NothingFrom(rows[..n], cutoff);
    }
  }

  /** Which stored days the daily read shows as stored: exactly those whose last row is at or after the cutoff,
      rows stored within the day included. A day whose rows are all before the cutoff shows instead the fold of its
      one-minute rows after the cutoff, a partial day. */
  lemma StoredDayShown(daily: Table, minutes: Table, cutoff: int, t: int)
    requires WellKeyed(daily) && WellKeyed(minutes)
    requires t in daily && forall u :: u in daily && DayOf(u) == DayOf(t) ==> u <= t
    ensures DailyRowsOn(daily, cutoff, DayOf(t)) != [] <==> t >= cutoff
    ensures var view, day := DailyView(daily, minutes, cutoff), DayOf(t);
            && (t >= cutoff ==> day in view && view[day] == AtMidnight(daily[t]))
            && (t < cutoff ==>
                  var after := MinuteRowsOn(minutes, cutoff, day);
                  (day in view <==> after != []) && (after != [] ==> view[day] == Summary(day, after)))
  {
    var rows := Listing(daily);
    ListingIsTable(daily);
    var i := KeyHasBar(rows, t);
    forall j | i < j < |rows| ensures DayOf(rows[j].time) != DayOf(t) { BarsAreKeys(rows, j); }
    LastRowOfDay(rows, cutoff, i);
    DailyViewMeaning(daily, minutes, cutoff, DayOf(t));
  }

  /** End to end: after any calls of `_write_bars`, from empty tables, each daily row is the last TWS row written for
      its day or else the first row any other provider wrote, and the daily read shows it if and only if its day
      begins at or after the cutoff. */
  lemma ShownAfterWrites(writes: seq<Write>, cutoff: int, day: int)
    ensures var tables, entries := AllWritten(writes), EntriesInto(writes, true);
            && tables.WellKept()
            && (day in tables.daily <==> FirstWritten(entries, day).Some?)
            && (day in tables.daily ==>
                  var view := DailyView(tables.daily, tables.minutes, cutoff);
                  && Some(tables.daily[day]) == (if LastFromTws(entries, day).Some? then LastFromTws(entries, day)
                                                 else FirstWritten(entries, day))
                  && (DailyRowsOn(tables.daily, cutoff, day) != [] <==> day >= cutoff)
                  && (day >= cutoff ==> day in view && view[day] == tables.daily[day]))
  {
    var tables := AllWritten(writes);
    AllWrittenStored(writes);
    AllWrittenKeeps(writes);
    PrecedenceHolds(EntriesInto(writes, true), day);
    if day in tables.daily {
      StoredDayShown(tables.daily, tables.minutes, cutoff, day);
    }
  }
}
