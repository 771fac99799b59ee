/** The `chart_intents` table: which chart series the user looked at last. Every touch and read prunes it, by age and
by rank; the main result is that this eager table never differs from what the whole touch history says. */
module ChartIntents {
  import opened Common

  const TTL_MS := 90_000
  const MAX_ROWS := 6

  datatype Key = Key(symbol: string, barSize: string, mode: string)

  datatype Row = Row(lastRequested: int, lastServed: Option<int>, rank: int)

  type Table = map<Key, Row>
  type Times = map<Key, int>

  // ---------------------------------------------------------------- the order of ORDER BY

  predicate TextLess(a: string, b: string) {
    b != [] && (a == [] || a[0] < b[0] || (a[0] == b[0] && TextLess(a[1..], b[1..])))
  }

  /** symbol ASC, bar_size ASC, what_to_show ASC */
  predicate KeyLess(a: Key, b: Key) {
    || TextLess(a.symbol, b.symbol)
    || (a.symbol == b.symbol && TextLess(a.barSize, b.barSize))
    || (a.symbol == b.symbol && a.barSize == b.barSize && TextLess(a.mode, b.mode))
  }

  /** `a` sorts before `b`: requested later, or at the same time and first by key. */
  predicate Ahead(m: Times, a: Key, b: Key)
    requires a in m && b in m
  {
    m[a] > m[b] || (m[a] == m[b] && KeyLess(a, b))
  }

  function AheadOf(m: Times, k: Key): set<Key>
    requires k in m
  {
    set a | a in m && Ahead(m, a, k)
  }

  lemma {:induction false} TextLessTotal(a: string, b: string)
    ensures TextLess(a, b) || a == b || TextLess(b, a)
    ensures !(TextLess(a, b) && TextLess(b, a))
    ensures !TextLess(a, a)
  {
    if a != [] {
      TextLessTotal(a[1..], a[1..]);
      if b != [] {
        TextLessTotal(a[1..], b[1..]);
        if a[0] == b[0] && a[1..] == b[1..] {
          assert a == [a[0]] + a[1..] && b == [b[0]] + b[1..];
        }
      }
    }
  }

  lemma {:induction false} TextLessTransitive(a: string, b: string, c: string)
    requires TextLess(a, b) && TextLess(b, c)
    ensures TextLess(a, c)
  {
    if a != [] && a[0] == b[0] && b[0] == c[0] {
      TextLessTransitive(a[1..], b[1..], c[1..]);
    }
  }

  lemma AheadTotal(m: Times, a: Key, b: Key)
    requires a in m && b in m
    ensures Ahead(m, a, b) || a == b || Ahead(m, b, a)
    ensures !(Ahead(m, a, b) && Ahead(m, b, a))
    ensures !Ahead(m, a, a)
  {
    TextLessTotal(a.symbol, b.symbol);
    TextLessTotal(a.barSize, b.barSize);
    TextLessTotal(a.mode, b.mode);
    TextLessTotal(a.symbol, a.symbol);
    TextLessTotal(a.barSize, a.barSize);
    TextLessTotal(a.mode, a.mode);
  }

  lemma KeyLessTransitive(a: Key, b: Key, c: Key)
    requires KeyLess(a, b) && KeyLess(b, c)
    ensures KeyLess(a, c)
  {
    if TextLess(a.symbol, b.symbol) && TextLess(b.symbol, c.symbol) {
      TextLessTransitive(a.symbol, b.symbol, c.symbol);
    } else if TextLess(a.barSize, b.barSize) && TextLess(b.barSize, c.barSize) {
      TextLessTransitive(a.barSize, b.barSize, c.barSize);
    } else if TextLess(a.mode, b.mode) && TextLess(b.mode, c.mode) {
      TextLessTransitive(a.mode, b.mode, c.mode);
    }
  }

  lemma AheadTransitive(m: Times, a: Key, b: Key, c: Key)
    requires a in m && b in m && c in m && Ahead(m, a, b) && Ahead(m, b, c)
    ensures Ahead(m, a, c)
  {
    if m[a] == m[b] == m[c] {
      KeyLessTransitive(a, b, c);
    }
  }

  /** A row has strictly more rows ahead of it than any row ahead of it. */
  lemma AheadHasFewer(m: Times, a: Key, b: Key)
    requires a in m && b in m && Ahead(m, a, b)
    ensures AheadOf(m, a) + {a} <= AheadOf(m, b)
    ensures |AheadOf(m, a)| < |AheadOf(m, b)|
  {
    forall x | x in AheadOf(m, a) ensures x in AheadOf(m, b) { AheadTransitive(m, x, a, b); }
    AheadTotal(m, a, a);
    SubsetSize(AheadOf(m, a) + {a}, AheadOf(m, b));
  }

  // ---------------------------------------------------------------- what pruning keeps

  function RequestTimes(t: Table): Times {
    map k | k in t :: t[k].lastRequested
  }

  function Fresh(m: Times, cutoff: int): Times {
    map k | k in m && m[k] >= cutoff :: m[k]
  }

  /** The rows with fewer than `maxRows` rows ahead of them. */
  function First(m: Times, maxRows: int): Times {
    map k | k in m && |AheadOf(m, k)| < maxRows :: m[k]
  }

  /** Once a row is cut off, `maxRows` rows remain. */
  lemma {:induction false} FirstIsFull(m: Times, maxRows: int, cut: Key)
    requires cut in m && cut !in First(m, maxRows)
    ensures |First(m, maxRows)| >= maxRows
    decreases |AheadOf(m, cut)|
  {
    if x :| x in AheadOf(m, cut) && x !in First(m, maxRows) {
      AheadHasFewer(m, x, cut);
      FirstIsFull(m, maxRows, x);
    } else {
      SubsetSize(AheadOf(m, cut), First(m, maxRows).Keys);
    }
  }

  lemma FirstAheadOfCut(m: Times, maxRows: int, kept: Key, cut: Key)
    requires kept in First(m, maxRows) && cut in m && cut !in First(m, maxRows)
    ensures Ahead(m, kept, cut)
  {
    AheadTotal(m, kept, cut);
    if Ahead(m, cut, kept) {
      AheadHasFewer(m, cut, kept);
    }
  }

  // ---------------------------------------------------------------- the statements the program runs

  function Cutoff(now: int, ttl: int): int {
    now - (if ttl < 0 then 0 else ttl)
  }

  function Unexpired(t: Table, cutoff: int): Table {
    map k | k in t && t[k].lastRequested >= cutoff :: t[k]
  }

  /** The rows with fewer than `maxRows` rows ahead of them; a negative `maxRows` means no cap. */
  function Trimmed(t: Table, maxRows: int): Table {
    map k | k in t && (maxRows >= 0 ==> |AheadOf(RequestTimes(t), k)| < maxRows) :: t[k]
  }

  /** What the rank update leaves: every row ranked by how many rows are ahead of it. */
  function Ranked(t: Table): Table {
    map k | k in t :: t[k].(rank := 1 + |AheadOf(RequestTimes(t), k)|)
  }

  /** `_prune_chart_intents_in_tx`: delete the expired, delete the overflow, rank what is left. */
  function Pruned(t: Table, now: int, ttl: int, maxRows: int): Table {
    Ranked(Trimmed(Unexpired(t, Cutoff(now, ttl)), maxRows))
  }

  function Upserted(t: Table, key: Key, now: int): Table {
    t[key := if key in t then t[key].(lastRequested := now) else Row(now, None, 1)]
  }

  /** Rows that a read with this limit returns: unexpired ones, best rank first. */
  predicate Served(t: Table, k: Key, now: int, limit: int) {
    k in t && t[k].lastRequested >= now - TTL_MS && t[k].rank <= limit
  }

  function StampedKeys(t: Table, keys: seq<Key>, now: int): Table {
    map k | k in t :: if k in keys then t[k].(lastServed := Some(now)) else t[k]
  }

  function Stamped(t: Table, now: int, limit: int): Table {
    map k | k in t :: if Served(t, k, now, limit) then t[k].(lastServed := Some(now)) else t[k]
  }

  /** Requested at most `ttl` before; a negative one counts as zero. */
  predicate IsFresh(row: Row, now: int, ttl: int) {
    row.lastRequested >= now || (ttl >= 0 && now - row.lastRequested <= ttl)
  }

  predicate SameTimes(a: Row, b: Row) { a.lastRequested == b.lastRequested && a.lastServed == b.lastServed }

  function KeysOf(result: seq<(Key, Row)>): seq<Key> {
    seq(|result|, i requires 0 <= i < |result| => result[i].0)
  }

  /** The first rows of the table by rank. */
  predicate AreRanked(result: seq<(Key, Row)>, t: Table) {
    forall i :: 0 <= i < |result| ==>
      result[i].0 in t && result[i].1 == t[result[i].0] && result[i].1.rank == i + 1
  }

  /** The rows of these keys carry the time of service; all else is as before. */
  predicate ServedAt(before: Table, after: Table, keys: seq<Key>, now: int) {
    && after.Keys == before.Keys
    && forall k :: k in before ==>
         after[k] == if k in keys then before[k].(lastServed := Some(now)) else before[k]
  }

  /** What a read makes of the table: nothing without a limit to serve. */
  function AfterRead(t: Table, now: int, limit: int): Table {
    if limit <= 0 then t else Stamped(Pruned(t, now, TTL_MS, MAX_ROWS), now, limit)
  }

  predicate IsSorted(m: Times, rows: seq<Key>) {
    && (forall i :: 0 <= i < |rows| ==> rows[i] in m)
    && (forall i, j :: 0 <= i < j < |rows| ==> Ahead(m, rows[i], rows[j]))
  }

  predicate IsOrdered(m: Times, rows: seq<Key>) {
    IsSorted(m, rows) && forall k :: k in m ==> k in rows
  }

  lemma InsertKeepsSorted(m: Times, rows: seq<Key>, at: nat, k: Key)
    requires IsSorted(m, rows) && at <= |rows| && k in m && k !in rows
    requires forall i :: 0 <= i < at ==> Ahead(m, rows[i], k)
    requires at < |rows| ==> !Ahead(m, rows[at], k)
    ensures IsSorted(m, rows[..at] + [k] + rows[at..])
  {
    forall i | at <= i < |rows| ensures Ahead(m, k, rows[i]) {
      AheadTotal(m, k, rows[at]);
      if i > at { AheadTransitive(m, k, rows[at], rows[i]); }
    }
  }

  lemma OverflowIsTail(m: Times, sorted: seq<Key>, maxRows: nat, k: Key)
    requires IsOrdered(m, sorted) && k in m
    ensures k in (if maxRows < |sorted| then sorted[maxRows..] else []) <==> |AheadOf(m, k)| >= maxRows
  {
    var overflow := if maxRows < |sorted| then sorted[maxRows..] else [];
    assert k in sorted;
    var j :| 0 <= j < |sorted| && sorted[j] == k;
    OrderedIndex(m, sorted, j);
    if j >= maxRows { assert overflow[j - maxRows] == k; }
    if k in overflow {
      var i :| 0 <= i < |overflow| && overflow[i] == k;
      OrderedIndex(m, sorted, maxRows + i);
    }
  }

  function Elements(rows: seq<Key>): set<Key> {
    set x | x in rows
  }

  lemma WithoutOverflow(t: Table, sorted: seq<Key>, maxRows: nat)
    requires IsOrdered(RequestTimes(t), sorted)
    ensures t - Elements(if maxRows < |sorted| then sorted[maxRows..] else []) == Trimmed(t, maxRows)
  {
    forall k | k in t
      ensures k in (if maxRows < |sorted| then sorted[maxRows..] else []) <==> |AheadOf(RequestTimes(t), k)| >= maxRows
    {
      OverflowIsTail(RequestTimes(t), sorted, maxRows, k);
    }
  }

  lemma {:induction false} DistinctSize(rows: seq<Key>)
    requires forall a, b :: 0 <= a < b < |rows| ==> rows[a] != rows[b]
    ensures |Elements(rows)| == |rows|
  {
    if rows != [] {
      var n := |rows| - 1;
      DistinctSize(rows[..n]);
      assert Elements(rows) == Elements(rows[..n]) + {rows[n]};
    }
  }

  lemma SortedDistinct(m: Times, rows: seq<Key>)
    requires IsSorted(m, rows)
    ensures forall a, b :: 0 <= a < b < |rows| ==> rows[a] != rows[b]
  {
    forall a, b | 0 <= a < b < |rows| ensures rows[a] != rows[b] {
      AheadTotal(m, rows[a], rows[a]);
    }
  }

  /** In sorted order, exactly the `i` earlier rows are ahead of row `i`. */
  lemma OrderedIndex(m: Times, rows: seq<Key>, i: nat)
    requires IsOrdered(m, rows) && i < |rows|
    ensures |AheadOf(m, rows[i])| == i
  {
    forall a | a in AheadOf(m, rows[i]) ensures a in rows[..i] {
      var j :| 0 <= j < |rows| && rows[j] == a;
      AheadTotal(m, a, rows[i]);
      if j < i { assert rows[..i][j] == a; }
    }
    SortedDistinct(m, rows);
    DistinctSize(rows[..i]);
    assert AheadOf(m, rows[i]) == Elements(rows[..i]);
  }

  lemma OrderedCoversAll(m: Times, rows: seq<Key>)
    requires IsOrdered(m, rows)
    ensures |rows| == |m|
  {
    SortedDistinct(m, rows);
    DistinctSize(rows);
    assert Elements(rows) == m.Keys;
  }

  class ChartIntents {
    var rows: Table

    constructor ()
      ensures rows == map[]
    {
      rows := map[];
    }

    /** SELECT ... ORDER BY last_requested DESC, symbol, bar_size, what_to_show */
    method SelectOrdered() returns (sorted: seq<Key>)
      ensures IsOrdered(RequestTimes(rows), sorted)
    {
      var m := RequestTimes(rows);
      sorted := [];
      var todo := rows.Keys;
      while todo != {}
        invariant todo <= m.Keys
        invariant IsSorted(m, sorted)
        invariant forall k :: k in m ==> (k in todo <==> k !in sorted)
        decreases |todo|
      {
        var k :| k in todo;
        todo := todo - {k};
        var at := 0;
        while at < |sorted| && Ahead(m, sorted[at], k)
          invariant 0 <= at <= |sorted|
          invariant forall i :: 0 <= i < at ==> Ahead(m, sorted[i], k)
        {
          at := at + 1;
        }
        InsertKeepsSorted(m, sorted, at, k);
        sorted := sorted[..at] + [k] + sorted[at..];
      }
    }

    method RecomputePriority()
      modifies this
      ensures rows == Ranked(old(rows))
    {
      ghost var before := rows;
      var m := RequestTimes(rows);
      var sorted := SelectOrdered();
      for i := 0 to |sorted|
        invariant rows.Keys == before.Keys
        invariant forall k :: k in rows ==> rows[k].(rank := 0) == before[k].(rank := 0)
        invariant forall j :: 0 <= j < i ==> rows[sorted[j]].rank == j + 1
      {
        if sorted[i] in sorted[..i] { AheadTotal(m, sorted[i], sorted[i]); }
        rows := rows[sorted[i] := rows[sorted[i]].(rank := i + 1)];
      }
      forall k | k in before ensures rows[k] == before[k].(rank := 1 + |AheadOf(m, k)|) {
        assert k in m && k in sorted;
        var j :| 0 <= j < |sorted| && sorted[j] == k;
        OrderedIndex(m, sorted, j);
      }
    }

    /** DELETE for each of the keys. */
    method DeleteKeys(keys: seq<Key>)
      modifies this
      ensures rows == old(rows) - Elements(keys)
    {
      ghost var before := rows;
      for i := 0 to |keys|
        invariant rows == before - Elements(keys[..i])
      {
        assert Elements(keys[..i + 1]) == Elements(keys[..i]) + {keys[i]};
        rows := rows - {keys[i]};
      }
      assert keys[..|keys|] == keys;
    }

    method DeleteOverflow(maxRows: int)
      requires maxRows >= 0
      modifies this
      ensures rows == Trimmed(old(rows), maxRows)
    {
      var sorted := SelectOrdered();
      WithoutOverflow(rows, sorted, maxRows);
      DeleteKeys(if maxRows < |sorted| then sorted[maxRows..] else []);
    }

    method PruneInTransaction(now: int, ttl: int, maxRows: int) returns (pruned: int)
      modifies this
      ensures rows == Pruned(old(rows), now, ttl, maxRows)
      ensures pruned == |old(rows)| - |rows| >= 0
    {
      var beforeCount := |rows|;
      rows := Unexpired(rows, Cutoff(now, ttl));
      if maxRows >= 0 {
        DeleteOverflow(maxRows);
      } else {
        assert rows == Trimmed(rows, maxRows);
      }
      RecomputePriority();
      SubsetSize(rows.Keys, old(rows).Keys);
      pruned := if beforeCount - |rows| < 0 then 0 else beforeCount - |rows|;
    }

    /** `touch_chart_intent`: the key is requested now and keeps its last-served time; the other rows that stay keep
        both their times. */
    method Touch(key: Key, now: int)
      modifies this
      ensures rows == Pruned(Upserted(old(rows), key, now), now, TTL_MS, MAX_ROWS)
              == Apply(old(rows), TouchOp(key, now))
      ensures key in rows ==>
                && rows[key].lastRequested == now
                && rows[key].lastServed == if key in old(rows) then old(rows)[key].lastServed else None
      ensures forall k :: k in rows && k != key ==> k in old(rows) && SameTimes(rows[k], old(rows)[k])
    {
      rows := Upserted(rows, key, now);
      var _ := PruneInTransaction(now, TTL_MS, MAX_ROWS);
    }

    method Prune(now: int, ttl: int, maxRows: int) returns (pruned: int)
      modifies this
      ensures rows == Pruned(old(rows), now, ttl, maxRows)
      ensures forall k :: k in rows ==> k in old(rows) && SameTimes(rows[k], old(rows)[k])
      ensures forall k :: k in rows ==> IsFresh(rows[k], now, ttl)
      ensures maxRows < 0 ==> forall k :: k in old(rows) && k !in rows ==> !IsFresh(old(rows)[k], now, ttl)
      ensures maxRows == 0 ==> rows == map[]
      ensures ttl == TTL_MS && maxRows == MAX_ROWS ==> rows == Apply(old(rows), PruneOp(now))
      ensures pruned == |old(rows)| - |rows| >= 0
    {
      pruned := PruneInTransaction(now, ttl, maxRows);
    }

    method StampServed(keys: seq<Key>, now: int)
      requires forall i :: 0 <= i < |keys| ==> keys[i] in rows
      modifies this
      ensures rows == StampedKeys(old(rows), keys, now)
    {
      ghost var before := rows;
      for i := 0 to |keys|
        invariant rows == StampedKeys(before, keys[..i], now)
      {
        rows := rows[keys[i] := rows[keys[i]].(lastServed := Some(now))];
      }
      assert keys[..|keys|] == keys;
    }

    /** SELECT ... WHERE last_requested >= cutoff ORDER BY priority_rank LIMIT limit, on a table just pruned */
    method SelectServed(now: int, limit: int) returns (keys: seq<Key>)
      requires limit > 0 && RanksHold(rows, now)
      ensures |keys| == if limit < |rows| then limit else |rows|
      ensures forall i :: 0 <= i < |keys| ==> keys[i] in rows && rows[keys[i]].rank == i + 1
      ensures forall k :: k in rows ==> (k in keys <==> Served(rows, k, now, limit))
    {
      var sorted := SelectOrdered();
      RanksOfOrdered(rows, sorted);
      ServedArePrefix(rows, sorted, now, limit);
      keys := sorted[..if limit < |sorted| then limit else |sorted|];
    }

    method Collect(keys: seq<Key>) returns (result: seq<(Key, Row)>)
      requires forall i :: 0 <= i < |keys| ==> keys[i] in rows
      ensures |result| == |keys|
      ensures forall i :: 0 <= i < |keys| ==> result[i] == (keys[i], rows[keys[i]])
    {
      result := [];
      for i := 0 to |keys|
        invariant |result| == i
        invariant forall j :: 0 <= j < i ==> result[j] == (keys[j], rows[keys[j]])
      {
        result := result + [(keys[i], rows[keys[i]])];
      }
    }

    /** The part of a read after its prune: pick the best ranks, stamp them, return them. */
    method Serve(now: int, limit: int) returns (result: seq<(Key, Row)>)
      requires limit > 0 && RanksHold(rows, now)
      modifies this
      ensures rows == Stamped(old(rows), now, limit)
      ensures |result| == if limit < |old(rows)| then limit else |old(rows)|
      ensures AreRanked(result, rows)
      ensures ServedAt(old(rows), rows, KeysOf(result), now)
    {
      var keys := SelectServed(now, limit);
      StampedAgree(rows, keys, now, limit);
      StampServed(keys, now);
      result := Collect(keys);
      assert KeysOf(result) == keys;
    }

    /** Rows to refresh, best rank first, each stamped as served now; no other row is. */
    method ReadFresh(now: int, limit: int) returns (result: seq<(Key, Row)>)
      modifies this
      ensures limit <= 0 ==> result == [] && rows == old(rows)
      ensures rows == AfterRead(old(rows), now, limit)
      ensures AreRanked(result, rows)
      ensures limit > 0 ==> |result| == if limit < |rows| then limit else |rows|
      ensures limit > 0 ==> ServedAt(Pruned(old(rows), now, TTL_MS, MAX_ROWS), rows, KeysOf(result), now)
    {
      if limit <= 0 { return []; }
      ghost var pruned := Pruned(rows, now, TTL_MS, MAX_ROWS);
      PruneToRead(now);
      assert rows == pruned;
      result := ServeRanked(now, limit);
    }

    method PruneToRead(now: int)
      modifies this
      ensures rows == Pruned(old(rows), now, TTL_MS, MAX_ROWS) && RanksHold(rows, now)
    {
      PrunedRanks(rows, now);
      var _ := PruneInTransaction(now, TTL_MS, MAX_ROWS);
    }

    method ServeRanked(now: int, limit: int) returns (result: seq<(Key, Row)>)
      requires limit > 0 && RanksHold(rows, now)
      modifies this
      ensures rows == Stamped(old(rows), now, limit) && AreRanked(result, rows)
      ensures |result| == if limit < |rows| then limit else |rows|
      ensures ServedAt(old(rows), rows, KeysOf(result), now)
    {
      StampKeepsSize(rows, now, limit);
      result := Serve(now, limit);
    }
  }

  /** Each rank counts the rows ahead, and no row has expired. */
  ghost predicate RanksHold(t: Table, now: int) {
    && (forall k :: k in t ==> t[k].rank == 1 + |AheadOf(RequestTimes(t), k)|)
    && (forall k :: k in t ==> t[k].lastRequested >= now - TTL_MS)
  }

  lemma StampedAgree(t: Table, keys: seq<Key>, now: int, limit: int)
    requires forall k :: k in t ==> (k in keys <==> Served(t, k, now, limit))
    ensures StampedKeys(t, keys, now) == Stamped(t, now, limit)
    ensures forall k :: k in t ==> StampedKeys(t, keys, now)[k].rank == t[k].rank
  {
  }

  lemma StampKeepsSize(t: Table, now: int, limit: int)
    ensures |Stamped(t, now, limit)| == |t|
  {
    assert Stamped(t, now, limit).Keys == t.Keys;
  }

  lemma RanksOfOrdered(t: Table, sorted: seq<Key>)
    requires IsOrdered(RequestTimes(t), sorted)
    requires forall k :: k in t ==> t[k].rank == 1 + |AheadOf(RequestTimes(t), k)|
    ensures |sorted| == |t| && forall j :: 0 <= j < |sorted| ==> sorted[j] in t && t[sorted[j]].rank == j + 1
  {
    var m := RequestTimes(t);
    OrderedCoversAll(m, sorted);
    assert m.Keys == t.Keys;
    forall j | 0 <= j < |sorted| ensures sorted[j] in t && t[sorted[j]].rank == j + 1 { OrderedIndex(m, sorted, j); }
  }

  lemma ServedArePrefix(t: Table, sorted: seq<Key>, now: int, limit: int)
    requires IsOrdered(RequestTimes(t), sorted) && limit > 0
    requires forall j :: 0 <= j < |sorted| ==> sorted[j] in t && t[sorted[j]].rank == j + 1
    requires forall k :: k in t ==> t[k].lastRequested >= now - TTL_MS
    ensures forall k :: k in t ==>
              (k in sorted[..if limit < |sorted| then limit else |sorted|] <==> Served(t, k, now, limit))
  {
    var n := if limit < |sorted| then limit else |sorted|;
    forall k | k in t ensures k in sorted[..n] <==> Served(t, k, now, limit) {
      assert k in RequestTimes(t) && k in sorted;
      var j :| 0 <= j < |sorted| && sorted[j] == k;
      if j < n { assert sorted[..n][j] == k; }
    }
  }

  /** After a prune, a row's rank counts the rows of the table itself that are ahead of it. */
  lemma PrunedRanks(t: Table, now: int)
    ensures RanksHold(Pruned(t, now, TTL_MS, MAX_ROWS), now)
  {
    var alive := Unexpired(t, now - TTL_MS);
    assert RequestTimes(Trimmed(alive, MAX_ROWS)) == RequestTimes(Ranked(Trimmed(alive, MAX_ROWS)));
  }

  // ---------------------------------------------------------------- eager pruning against the full history

  /** The oldest request time that is still fresh. */
  function Horizon(now: int): int {
    now - TTL_MS
  }

  datatype Op = TouchOp(key: Key, now: int) | PruneOp(now: int) | ReadOp(now: int, limit: int)

  function Apply(t: Table, op: Op): Table {
    match op
    case TouchOp(key, now) => Pruned(Upserted(t, key, now), now, TTL_MS, MAX_ROWS)
    case PruneOp(now) => Pruned(t, now, TTL_MS, MAX_ROWS)
    case ReadOp(now, limit) => AfterRead(t, now, limit)
  }

  /** The table next to what it stands for: when each key was last touched in the whole history, and the time
      of the last operation. */
  datatype World = World(table: Table, lastTouch: Times, clock: int)

  function Advance(w: World, op: Op): World {
    match op
    case TouchOp(key, now) => World(Apply(w.table, op), w.lastTouch[key := now], now)
    case PruneOp(now) => World(Apply(w.table, op), w.lastTouch, now)
    case ReadOp(now, limit) => if limit <= 0 then w else World(Apply(w.table, op), w.lastTouch, now)
  }

  function Run(w: World, ops: seq<Op>): World
    decreases |ops|
  {
    if ops == [] then w else Run(Advance(w, ops[0]), ops[1..])
  }

  predicate ClockNeverGoesBack(clock: int, ops: seq<Op>)
    decreases |ops|
  {
    ops == [] || (clock <= ops[0].now && ClockNeverGoesBack(ops[0].now, ops[1..]))
  }

  /** The lazy specification: of the keys touched within the TTL, the six touched last. */
  function Wanted(w: World): Times {
    First(Fresh(w.lastTouch, Horizon(w.clock)), MAX_ROWS)
  }

  /** `later` is `earlier` after time passed and perhaps one key was touched at `now`. */
  predicate Follows(earlier: Times, later: Times, now: int) {
    && (forall k :: k in earlier ==> k in later && earlier[k] <= now && (later[k] == earlier[k] || later[k] == now))
    && (forall k :: k in later && k !in earlier ==> later[k] == now)
  }

  /** Rows that were ahead of an untouched row stay ahead of it. */
  lemma StaysAhead(earlier: Times, later: Times, now: int, a: Key, b: Key)
    requires Follows(earlier, later, now)
    requires a in earlier && b in earlier && Ahead(earlier, a, b) && later[b] == earlier[b]
    ensures Ahead(later, a, b)
  {
  }

  /** A row that was cut off and not touched since is behind every row kept then. */
  lemma CutStaysBehind(all: Times, all': Times, now: int, cutoff: int, cutoff': int, kept: Key, cut: Key)
    requires Follows(all, all', now) && cutoff <= cutoff' <= now
    requires kept in First(Fresh(all, cutoff), MAX_ROWS)
    requires cut in all && all'[cut] == all[cut] && cut in Fresh(all', cutoff')
    requires cut !in First(Fresh(all, cutoff), MAX_ROWS)
    ensures kept in Fresh(all', cutoff') && Ahead(Fresh(all', cutoff'), kept, cut)
  {
    FirstAheadOfCut(Fresh(all, cutoff), MAX_ROWS, kept, cut);
    StaysAhead(all, all', now, kept, cut);
  }

  /** The rows the eager table still has at the next operation: `kept` of the previous one, updated alike. */
  predicate EagerNext(all: Times, all': Times, cutoff: int, eager': Times) {
    && (forall k :: k in eager' ==> k in all' && eager'[k] == all'[k])
    && (forall k :: k in First(Fresh(all, cutoff), MAX_ROWS) ==> k in eager')
    && (forall k :: k in all' && k !in eager' ==>
        k in all && all'[k] == all[k] && k !in First(Fresh(all, cutoff), MAX_ROWS))
  }

  /** No row missing from the eager table can be among the first six, or ahead of one that is. */
  lemma MissingIsBehindSix(all: Times, all': Times, now: int, cutoff: int, cutoff': int, eager': Times, b: Key)
    requires Follows(all, all', now) && cutoff <= cutoff' <= now && EagerNext(all, all', cutoff, eager')
    requires b in Fresh(all', cutoff') && b !in eager'
    ensures First(Fresh(all, cutoff), MAX_ROWS).Keys <= AheadOf(Fresh(all', cutoff'), b)
    ensures First(Fresh(all, cutoff), MAX_ROWS).Keys <= Fresh(eager', cutoff').Keys
    ensures |First(Fresh(all, cutoff), MAX_ROWS).Keys| >= MAX_ROWS
  {
    FirstIsFull(Fresh(all, cutoff), MAX_ROWS, b);
    forall a | a in First(Fresh(all, cutoff), MAX_ROWS)
      ensures a in AheadOf(Fresh(all', cutoff'), b)
      ensures a in Fresh(eager', cutoff')
    {
      CutStaysBehind(all, all', now, cutoff, cutoff', a, b);
    }
  }

  lemma EagerAheadIsLazyAhead(all': Times, cutoff': int, eager': Times, k: Key)
    requires forall x :: x in eager' ==> x in all' && eager'[x] == all'[x]
    requires k in Fresh(eager', cutoff')
    ensures k in Fresh(all', cutoff')
    ensures AheadOf(Fresh(eager', cutoff'), k) <= AheadOf(Fresh(all', cutoff'), k)
    ensures forall a :: a in AheadOf(Fresh(all', cutoff'), k) && a in eager' ==> a in AheadOf(Fresh(eager', cutoff'), k)
  {
  }

  /** A row the eager table lacks is not among the first six of the full history either. */
  lemma MissingIsCut(all: Times, all': Times, now: int, cutoff: int, cutoff': int, eager': Times, k: Key)
    requires Follows(all, all', now) && cutoff <= cutoff' <= now && EagerNext(all, all', cutoff, eager')
    requires k !in eager'
    ensures k !in First(Fresh(all', cutoff'), MAX_ROWS)
  {
    if k in Fresh(all', cutoff') {
      MissingIsBehindSix(all, all', now, cutoff, cutoff', eager', k);
      SubsetSize(First(Fresh(all, cutoff), MAX_ROWS).Keys, AheadOf(Fresh(all', cutoff'), k));
    }
  }

  /** If a row of the eager table is behind a missing one, six rows of the eager table are ahead of it. */
  lemma BehindMissing(all: Times, all': Times, now: int, cutoff: int, cutoff': int, eager': Times, b: Key, k: Key)
    requires Follows(all, all', now) && cutoff <= cutoff' <= now && EagerNext(all, all', cutoff, eager')
    requires k in Fresh(all', cutoff') && k in Fresh(eager', cutoff')
    requires b in AheadOf(Fresh(all', cutoff'), k) && b !in eager'
    ensures |AheadOf(Fresh(eager', cutoff'), k)| >= MAX_ROWS
  {
    var six := First(Fresh(all, cutoff), MAX_ROWS).Keys;
    MissingIsBehindSix(all, all', now, cutoff, cutoff', eager', b);
    EagerAheadIsLazyAhead(all', cutoff', eager', k);
    forall a | a in six ensures a in AheadOf(Fresh(eager', cutoff'), k) {
      AheadTransitive(Fresh(all', cutoff'), a, b, k);
    }
    SubsetSize(six, AheadOf(Fresh(eager', cutoff'), k));
  }

  /** One operation keeps eager and lazy pruning in agreement, for each key and for its rank. */
  lemma EagerMatchesLazy(all: Times, all': Times, now: int, cutoff: int, cutoff': int, eager': Times, k: Key)
    requires Follows(all, all', now) && cutoff <= cutoff' <= now && EagerNext(all, all', cutoff, eager')
    ensures k in First(Fresh(eager', cutoff'), MAX_ROWS) <==> k in First(Fresh(all', cutoff'), MAX_ROWS)
    ensures k in First(Fresh(eager', cutoff'), MAX_ROWS) ==>
              AheadOf(Fresh(eager', cutoff'), k) == AheadOf(Fresh(all', cutoff'), k)
  {
    if k !in eager' {
      MissingIsCut(all, all', now, cutoff, cutoff', eager', k);
    } else if k in Fresh(eager', cutoff') {
      EagerAheadIsLazyAhead(all', cutoff', eager', k);
      SubsetSize(AheadOf(Fresh(eager', cutoff'), k), AheadOf(Fresh(all', cutoff'), k));
      if b :| b in AheadOf(Fresh(all', cutoff'), k) && b !in eager' {
        BehindMissing(all, all', now, cutoff, cutoff', eager', b, k);
      } else {
        assert AheadOf(Fresh(eager', cutoff'), k) == AheadOf(Fresh(all', cutoff'), k);
      }
    }
  }

  /** What a table says: request time and rank of each key, without the stamps that no decision reads. */
  function Contents(t: Table): map<Key, (int, int)> {
    map k | k in t :: (t[k].lastRequested, t[k].rank)
  }

  /** The same, as it should be for these request times. */
  function Listing(m: Times): map<Key, (int, int)> {
    map k | k in m :: (m[k], 1 + |AheadOf(m, k)|)
  }

  ghost predicate Holds(t: Table, m: Times) {
    RequestTimes(t) == m && Contents(t) == Listing(m)
  }

  lemma HoldsMeans(t: Table, m: Times)
    requires Holds(t, m)
    ensures t.Keys == m.Keys
    ensures forall k :: k in t ==> t[k].rank == 1 + |AheadOf(m, k)|
  {
    assert t.Keys == RequestTimes(t).Keys;
    forall k | k in t ensures t[k].rank == 1 + |AheadOf(m, k)| {
      assert Contents(t)[k] == Listing(m)[k];
    }
  }

  /** What one prune leaves, in terms of the request times before it. */
  lemma PrunedHolds(t: Table, now: int)
    ensures Holds(Pruned(t, now, TTL_MS, MAX_ROWS), First(Fresh(RequestTimes(t), Horizon(now)), MAX_ROWS))
  {
    assert Cutoff(now, TTL_MS) == Horizon(now);
    var alive := Unexpired(t, Cutoff(now, TTL_MS));
    assert RequestTimes(alive) == Fresh(RequestTimes(t), Horizon(now));
    assert RequestTimes(Trimmed(alive, MAX_ROWS)) == First(RequestTimes(alive), MAX_ROWS);
    assert RequestTimes(Ranked(Trimmed(alive, MAX_ROWS))) == RequestTimes(Trimmed(alive, MAX_ROWS));
  }

  /** A key touched, or nothing, between two histories of touches and the tables built from them. */
  lemma TouchFollows(all: Times, eager: Times, cutoff: int, now: int, touched: Option<Key>)
    requires forall k :: k in all ==> all[k] <= now
    requires eager == First(Fresh(all, cutoff), MAX_ROWS)
    ensures var all' := if touched.Some? then all[touched.value := now] else all;
            var eager' := if touched.Some? then eager[touched.value := now] else eager;
            Follows(all, all', now) && EagerNext(all, all', cutoff, eager')
  {
  }

  lemma OneOperation(all: Times, eager: Times, cutoff: int, now: int, touched: Option<Key>)
    requires forall k :: k in all ==> all[k] <= now
    requires eager == First(Fresh(all, cutoff), MAX_ROWS) && cutoff <= Horizon(now)
    ensures var all' := if touched.Some? then all[touched.value := now] else all;
            var eager' := if touched.Some? then eager[touched.value := now] else eager;
            First(Fresh(eager', Horizon(now)), MAX_ROWS) == First(Fresh(all', Horizon(now)), MAX_ROWS)
  {
    var all' := if touched.Some? then all[touched.value := now] else all;
    var eager' := if touched.Some? then eager[touched.value := now] else eager;
    TouchFollows(all, eager, cutoff, now, touched);
    forall k | k in all'
      ensures k in First(Fresh(eager', Horizon(now)), MAX_ROWS) <==> k in First(Fresh(all', Horizon(now)), MAX_ROWS)
    {
      EagerMatchesLazy(all, all', now, cutoff, Horizon(now), eager', k);
    }
    assert First(Fresh(eager', Horizon(now)), MAX_ROWS) == First(Fresh(all', Horizon(now)), MAX_ROWS);
  }

  /** Stamping rows as served touches neither times nor ranks. */
  lemma StampHolds(t: Table, m: Times, now: int, limit: int)
    requires Holds(t, m)
    ensures Holds(Stamped(t, now, limit), m)
  {
    assert Contents(Stamped(t, now, limit)) == Contents(t);
    assert RequestTimes(Stamped(t, now, limit)) == RequestTimes(t);
  }

  lemma UpsertTimes(t: Table, key: Key, now: int)
    ensures RequestTimes(Upserted(t, key, now)) == RequestTimes(t)[key := now]
  {
  }

  lemma TouchHolds(t: Table, all: Times, cutoff: int, key: Key, now: int, t': Table, wanted: Times)
    requires forall k :: k in all ==> all[k] <= now
    requires RequestTimes(t) == First(Fresh(all, cutoff), MAX_ROWS) && cutoff <= Horizon(now)
    requires t' == Pruned(Upserted(t, key, now), now, TTL_MS, MAX_ROWS)
    requires wanted == First(Fresh(all[key := now], Horizon(now)), MAX_ROWS)
    ensures Holds(t', wanted)
  {
    OneOperation(all, RequestTimes(t), cutoff, now, Some(key));
    UpsertTimes(t, key, now);
    PrunedHolds(Upserted(t, key, now), now);
  }

  lemma PruneHolds(t: Table, all: Times, cutoff: int, now: int, t': Table, wanted: Times)
    requires forall k :: k in all ==> all[k] <= now
    requires RequestTimes(t) == First(Fresh(all, cutoff), MAX_ROWS) && cutoff <= Horizon(now)
    requires t' == Pruned(t, now, TTL_MS, MAX_ROWS)
    requires wanted == First(Fresh(all, Horizon(now)), MAX_ROWS)
    ensures Holds(t', wanted)
  {
    OneOperation(all, RequestTimes(t), cutoff, now, None);
    PrunedHolds(t, now);
  }

  lemma ReadHolds(t: Table, all: Times, cutoff: int, now: int, limit: int, t': Table, wanted: Times)
    requires forall k :: k in all ==> all[k] <= now
    requires RequestTimes(t) == First(Fresh(all, cutoff), MAX_ROWS) && cutoff <= Horizon(now)
    requires t' == Stamped(Pruned(t, now, TTL_MS, MAX_ROWS), now, limit)
    requires wanted == First(Fresh(all, Horizon(now)), MAX_ROWS)
    ensures Holds(t', wanted)
  {
    PruneHolds(t, all, cutoff, now, Pruned(t, now, TTL_MS, MAX_ROWS), wanted);
    StampHolds(Pruned(t, now, TTL_MS, MAX_ROWS), wanted, now, limit);
  }

  ghost predicate Agrees(w: World) {
    Past(w.lastTouch, w.clock) && Holds(w.table, Wanted(w))
  }

  ghost predicate Past(m: Times, now: int) {
    forall k :: k in m ==> m[k] <= now
  }

  lemma AdvanceAgrees(w: World, op: Op)
    requires Agrees(w) && w.clock <= op.now
    ensures Agrees(Advance(w, op))
  {
    var cutoff := Horizon(w.clock);
    var next := Advance(w, op);
    var wanted := Wanted(next);
    match op
    case TouchOp(key, now) =>
      TouchHolds(w.table, w.lastTouch, cutoff, key, now, next.table, wanted);
    case PruneOp(now) =>
      PruneHolds(w.table, w.lastTouch, cutoff, now, next.table, wanted);
    case ReadOp(now, limit) =>
      if limit > 0 { ReadHolds(w.table, w.lastTouch, cutoff, now, limit, next.table, wanted); }
  }

  /** The eager table always holds exactly what the whole history asks for, with ranks counted in it. */
  lemma {:induction false} EagerTableIsHistory(w: World, ops: seq<Op>)
    requires Agrees(w) && ClockNeverGoesBack(w.clock, ops)
    ensures Agrees(Run(w, ops))
    decreases |ops|
  {
    if ops != [] {
      AdvanceAgrees(w, ops[0]);
      ClockMayLag(Advance(w, ops[0]).clock, ops[0].now, ops[1..]);
      EagerTableIsHistory(Advance(w, ops[0]), ops[1..]);
    }
  }

  lemma ClockMayLag(clock: int, later: int, ops: seq<Op>)
    requires clock <= later && ClockNeverGoesBack(later, ops)
    ensures ClockNeverGoesBack(clock, ops)
  {
  }

  /** Ranks follow the (time descending, key ascending) order. */
  lemma RankOfPair(m: Times, a: Key, b: Key)
    requires a in m && b in m
    ensures |AheadOf(m, a)| < |AheadOf(m, b)| <==> Ahead(m, a, b)
    ensures a != b ==> |AheadOf(m, a)| != |AheadOf(m, b)|
    ensures |AheadOf(m, a)| < |m|
  {
    AheadTotal(m, a, b);
    if Ahead(m, a, b) { AheadHasFewer(m, a, b); }
    if Ahead(m, b, a) { AheadHasFewer(m, b, a); }
    AheadTotal(m, a, a);
    SubsetSize(AheadOf(m, a) + {a}, m.Keys);
  }

  lemma RanksFollowOrder(t: Table, m: Times)
    requires t.Keys == m.Keys && forall k :: k in t ==> t[k].rank == 1 + |AheadOf(m, k)|
    ensures forall a, b :: a in t && b in t ==> (t[a].rank < t[b].rank <==> Ahead(m, a, b))
  {
    forall a, b | a in t && b in t ensures t[a].rank < t[b].rank <==> Ahead(m, a, b) {
      assert a in m && b in m;
      RankOfPair(m, a, b);
    }
  }

  lemma RanksDistinct(t: Table, m: Times)
    requires t.Keys == m.Keys && forall k :: k in t ==> t[k].rank == 1 + |AheadOf(m, k)|
    ensures forall a, b :: a in t && b in t && a != b ==> t[a].rank != t[b].rank
  {
    forall a, b | a in t && b in t && a != b ensures t[a].rank != t[b].rank {
      assert a in m && b in m;
      RankOfPair(m, a, b);
    }
  }

  lemma RanksInRange(t: Table, m: Times)
    requires t.Keys == m.Keys && forall k :: k in t ==> t[k].rank == 1 + |AheadOf(m, k)|
    ensures forall k :: k in t ==> 1 <= t[k].rank <= |t|
  {
    assert |t| == |t.Keys| == |m|;
    forall k | k in t ensures t[k].rank <= |t| {
      RankOfPair(m, k, k);
    }
  }

  /** Ranks are exactly 1 to n. */
  lemma RanksAreDense(t: Table, i: int)
    requires forall a, b :: a in t && b in t && a != b ==> t[a].rank != t[b].rank
    requires forall k :: k in t ==> 1 <= t[k].rank <= |t|
    ensures (exists k :: k in t && t[k].rank == i) <==> 1 <= i <= |t|
  {
    var ranks := set k | k in t :: t[k].rank;
    RankImage(t, t.Keys);
    SubsetOfSameSize(ranks, UpTo(|t|));
    assert i in ranks <==> i in UpTo(|t|);
  }

  /** At most six rows remain: a seventh would have six ahead of it. */
  lemma AtMostSix(t: Table, m: Times)
    requires Holds(t, First(m, MAX_ROWS))
    ensures |t| <= MAX_ROWS
  {
    HoldsMeans(t, First(m, MAX_ROWS));
    RanksFollowOrder(t, First(m, MAX_ROWS));
    RanksDistinct(t, First(m, MAX_ROWS));
    RanksInRange(t, First(m, MAX_ROWS));
    if |t| > MAX_ROWS {
      RanksAreDense(t, MAX_ROWS + 1);
      var k :| k in t && t[k].rank == MAX_ROWS + 1;
      SubsetSize(AheadOf(First(m, MAX_ROWS), k), AheadOf(m, k));
    }
  }

  /** After any history, from an empty table at any time, the table is the lazy specification: the six most
      recently touched keys within the TTL, ranked 1 to n by time descending, key ascending. */
  lemma ChartIntentsRefineHistory(start: int, ops: seq<Op>, i: int)
    requires ClockNeverGoesBack(start, ops)
    ensures var w := Run(World(map[], map[], start), ops);
            && RequestTimes(w.table) == Wanted(w)
            && w.table.Keys == Wanted(w).Keys
            && (forall a, b :: a in w.table && b in w.table ==>
                  (w.table[a].rank < w.table[b].rank <==> Ahead(Wanted(w), a, b)))
            && |w.table| <= MAX_ROWS
            && ((exists k :: k in w.table && w.table[k].rank == i) <==> 1 <= i <= |w.table|)
  {
    EagerTableIsHistory(World(map[], map[], start), ops);
    var w := Run(World(map[], map[], start), ops);
    HoldsMeans(w.table, Wanted(w));
    RanksFollowOrder(w.table, Wanted(w));
    RanksDistinct(w.table, Wanted(w));
    RanksInRange(w.table, Wanted(w));
    RanksAreDense(w.table, i);
    AtMostSix(w.table, Fresh(w.lastTouch, Horizon(w.clock)));
  }

  lemma {:induction false} RankImage(t: Table, ks: set<Key>)
    requires ks <= t.Keys
    requires forall a, b :: a in t && b in t && a != b ==> t[a].rank != t[b].rank
    ensures |set k | k in ks :: t[k].rank| == |ks|
  {
    if ks != {} {
      var k :| k in ks;
      RankImage(t, ks - {k});
      assert (set x | x in ks :: t[x].rank) == (set x | x in ks - {k} :: t[x].rank) + {t[k].rank};
    }
  }

  function UpTo(n: nat): (r: set<int>)
    ensures |r| == n && forall i :: i in r <==> 1 <= i <= n
  {
    if n == 0 then {} else UpTo(n - 1) + {n}
  }

  lemma SubsetOfSameSize(a: set<int>, b: set<int>)
    requires a <= b && |a| == |b|
    ensures a == b
  {
    forall x | x in b ensures x in a {
      if x !in a { SubsetSize(a, b - {x}); }
    }
  }
}
