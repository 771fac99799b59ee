/** Round-robin batches over a symbol list.

- `TechnicalsScorer`: the background scorer, over the symbols of its universe that are eligible.
- `NextWorkerBatch`: the worker's backfill and snapshot loops, eight at a time.

Both are stretches of one cyclic walk, which is what makes them fair and lets them reach every symbol. */
module RoundRobin {
  import opened Common

  type Symbol = string

  /** The list from position `c` on, wrapping around, `n` positions long. */
  function Cyclic(list: seq<Symbol>, c: nat, n: nat): seq<Symbol>
    requires list != []
  {
    seq(n, i requires 0 <= i < n => list[(c + i) % |list|])
  }

  function Eligible(universe: seq<Symbol>, excluded: set<Symbol>): seq<Symbol> {
    if universe == [] then [] else
    var n := |universe| - 1;
    Eligible(universe[..n], excluded) + if universe[n] in excluded then [] else [universe[n]]
  }

  /** Excluded symbols are left out, all others stay, as often as they are listed. */
  lemma {:induction false} EligibleMeaning(universe: seq<Symbol>, excluded: set<Symbol>, s: Symbol)
    ensures multiset(Eligible(universe, excluded))[s] == if s in excluded then 0 else multiset(universe)[s]
  {
    if universe != [] {
      var n := |universe| - 1;
      EligibleMeaning(universe[..n], excluded, s);
      assert universe == universe[..n] + [universe[n]];
    }
  }

  /** And in their order. */
  lemma {:induction false} EligibleConcat(a: seq<Symbol>, b: seq<Symbol>, excluded: set<Symbol>)
    ensures Eligible(a + b, excluded) == Eligible(a, excluded) + Eligible(b, excluded)
  {
    if b == [] {
      assert a + b == a;
    } else {
      var n := |b| - 1;
      EligibleConcat(a, b[..n], excluded);
      assert (a + b)[..|a| + n] == a + b[..n];
    }
  }

  lemma EligibleMembers(universe: seq<Symbol>, excluded: set<Symbol>)
    ensures forall s :: s in Eligible(universe, excluded) <==> s in universe && s !in excluded
  {
    forall s ensures s in Eligible(universe, excluded) <==> s in universe && s !in excluded {
      EligibleMeaning(universe, excluded, s);
      assert s in universe <==> multiset(universe)[s] > 0;
      assert s in Eligible(universe, excluded) <==> multiset(Eligible(universe, excluded))[s] > 0;
    }
  }

  lemma EligibleBatch(universe: seq<Symbol>, excluded: set<Symbol>, size: nat, c: nat)
    requires size >= 1
    ensures var list := Eligible(universe, excluded);
            if list == [] then forall s :: s in universe ==> s in excluded
            else var batch := Cyclic(list, c, Smaller(size, |list|));
                 && batch != [] && (forall s :: s in batch ==> s in universe && s !in excluded)
                 && exists s :: s in universe && s !in excluded
  {
    EligibleMembers(universe, excluded);
    var list := Eligible(universe, excluded);
    if list != [] {
      var batch := Cyclic(list, c, Smaller(size, |list|));
      forall i | 0 <= i < |batch| ensures batch[i] in list {}
      assert list[0] in list;
    }
  }

  /** Cursor after `reset if past the end`. */
  function Clamp(cursor: nat, n: nat): nat { if cursor >= n then 0 else cursor }

  function Smaller(a: nat, b: nat): nat { if a < b then a else b }

  class TechnicalsScorer {
    const batchSize: nat
    var universe: seq<Symbol>
    var cursor: nat

    constructor (batchSize: nat, universe: seq<Symbol>)
      requires batchSize >= 1
      ensures this.batchSize == batchSize && this.universe == universe && cursor == 0
    {
      this.batchSize, this.universe := batchSize, universe;
      cursor := 0;
    }

    /** `_next_universe_batch`: the next batch of eligible symbols, at most the whole list once; none is excluded, and
        the batch is empty only if there is nothing else. */
    method NextUniverseBatch(excluded: set<Symbol>) returns (batch: seq<Symbol>)
      requires batchSize >= 1
      modifies this`cursor
      ensures var list := Eligible(universe, excluded);
              && (list == [] ==> batch == [] && cursor == 0)
              && (list != [] ==>
                    var c := Clamp(old(cursor), |list|);
                    batch == Cyclic(list, c, Smaller(batchSize, |list|)) && cursor == (c + |batch|) % |list|)
      ensures forall s :: s in batch ==> s in universe && s !in excluded
      ensures batch == [] <==> forall s :: s in universe ==> s in excluded
    {
      EligibleBatch(universe, excluded, batchSize, Clamp(cursor, |Eligible(universe, excluded)|));
      var list := [];
      for i := 0 to |universe|
        invariant list == Eligible(universe[..i], excluded)
      {
        assert universe[..i + 1][..i] == universe[..i];
        if universe[i] !in excluded {
          list := list + [universe[i]];
        }
      }
      assert universe[..|universe|] == universe;
      if list == [] {
        cursor := 0;
        return [];
      }
      if cursor >= |list| {
        cursor := 0;
      }
      var size := Smaller(batchSize, |list|);
      var end := cursor + size;
      SliceIsCyclic(list, cursor, size);
      if end <= |list| {
        batch := list[cursor..end];
      } else {
        batch := list[cursor..] + list[..end - |list|];
      }
      cursor := end % |list|;
    }

    /** `set_universe` */
    method SetUniverse(symbols: seq<Symbol>)
      modifies this
      ensures universe == symbols && cursor == Clamp(old(cursor), |symbols|)
    {
      universe := symbols;
      if cursor >= |universe| {
        cursor := 0;
      }
    }
  }

  /** A stretch that stays within two turns is the rest of the list and a beginning of it. */
  lemma SliceIsCyclic(list: seq<Symbol>, c: nat, n: nat)
    requires c < |list| && n <= |list| - c + |list|
    ensures c + n <= |list| ==> list[c..c + n] == Cyclic(list, c, n)
    ensures c + n > |list| ==> list[c..] + list[..c + n - |list|] == Cyclic(list, c, n)
  {
    var walk := Cyclic(list, c, n);
    forall i | 0 <= i < n ensures walk[i] == if c + i < |list| then list[c + i] else list[c + i - |list|] {
      WrapOnce(c + i, |list|);
    }
    if c + n <= |list| {
      assert list[c..c + n] == walk;
    } else {
      assert list[c..] + list[..c + n - |list|] == walk;
    }
  }

  lemma WrapOnce(x: nat, n: nat)
    requires n > 0 && x < 2 * n
    ensures x % n == if x < n then x else x - n
  {
  }

  // ---------------------------------------------------------------- fairness

  /** `rounds` batches of `size` symbols one after another, each from the cursor the last one left. */
  function Batches(list: seq<Symbol>, cursor: nat, size: nat, rounds: nat): seq<Symbol>
    requires list != []
    decreases rounds
  {
    if rounds == 0 then [] else
    Cyclic(list, cursor, size) + Batches(list, (cursor + size) % |list|, size, rounds - 1)
  }

  /** How often a symbol was visited. */
  function Visits(visited: seq<Symbol>, s: Symbol): nat { multiset(visited)[s] }

  predicate Distinct(list: seq<Symbol>) {
    forall i, j :: 0 <= i < j < |list| ==> list[i] != list[j]
  }

  lemma CyclicConcat(list: seq<Symbol>, c: nat, a: nat, b: nat)
    requires list != []
    ensures Cyclic(list, c, a + b) == Cyclic(list, c, a) + Cyclic(list, (c + a) % |list|, b)
  {
    var first, second, both := Cyclic(list, c, a), Cyclic(list, (c + a) % |list|, b), Cyclic(list, c, a + b);
    forall i | 0 <= i < b ensures second[i] == both[a + i] {
      ModOfSum(c + a, i, |list|);
    }
    assert both == first + second;
  }

  lemma {:induction false} BatchesAreCyclic(list: seq<Symbol>, c: nat, size: nat, rounds: nat)
    requires list != []
    ensures Batches(list, c, size, rounds) == Cyclic(list, c, rounds * size)
    decreases rounds
  {
    if rounds > 0 {
      BatchesAreCyclic(list, (c + size) % |list|, size, rounds - 1);
      assert rounds * size == size + (rounds - 1) * size;
      CyclicConcat(list, c, size, (rounds - 1) * size);
    }
  }

  lemma ModOfSum(a: nat, b: nat, n: nat)
    requires n > 0
    ensures (a % n + b) % n == (a + b) % n
  {
    var q := a / n;
    assert a == q * n + a % n;
    ModShift(a % n + b, q, n);
  }

  lemma {:induction false} ModShift(x: nat, q: nat, n: nat)
    requires n > 0
    ensures (x + q * n) % n == x % n
  {
    if q > 0 {
      ModShift(x, q - 1, n);
      assert x + q * n == (x + (q - 1) * n) + n;
      AddOneTurn(x + (q - 1) * n, n);
    }
  }

  lemma AddOneTurn(x: nat, n: nat)
    requires n > 0
    ensures (x + n) % n == x % n
  {
    var q, r := x / n, x % n;
    assert x + n == (q + 1) * n + r;
    Division(x + n, n, q + 1, r);
  }

  /** Visits of a position that the walk reaches `offset` steps after the cursor, within `m` steps: one per full
      turn of `n`, plus one if the unfinished turn has passed it. */
  function VisitsAt(m: nat, n: nat, offset: nat): nat
    requires n > 0
  {
    m / n + if offset < m % n then 1 else 0
  }

  lemma VisitsOfAppend(visited: seq<Symbol>, last: Symbol, s: Symbol)
    ensures Visits(visited + [last], s) == Visits(visited, s) + if last == s then 1 else 0
  {
  }

  lemma {:induction false} VisitsOfPosition(list: seq<Symbol>, c: nat, m: nat, p: nat)
    requires list != [] && Distinct(list) && c < |list| && p < |list|
    ensures Visits(Cyclic(list, c, m), list[p]) == VisitsAt(m, |list|, Offset(c, p, |list|))
  {
    var n := |list|;
    if m == 0 {
      NoVisitsYet(n, Offset(c, p, n));
    } else {
      var before := Cyclic(list, c, m - 1);
      VisitsOfPosition(list, c, m - 1, p);
      var at := (c + (m - 1)) % n;
      assert Cyclic(list, c, m) == before + [list[at]];
      VisitsOfAppend(before, list[at], list[p]);
      LandsAtOffset(c, m - 1, p, n);
      assert list[at] == list[p] <==> at == p;
      NextCount(m - 1, n, Offset(c, p, n));
    }
  }

  lemma NoVisitsYet(n: nat, offset: nat)
    requires n > 0
    ensures VisitsAt(0, n, offset) == 0
  {
  }

  /** Two positions never differ by more than one visit. */
  lemma VisitsAtClose(m: nat, n: nat, i: nat, j: nat)
    requires n > 0
    ensures VisitsAt(m, n, i) <= VisitsAt(m, n, j) + 1
  {
  }

  /** How many steps after `c` the walk first reaches position `p`. */
  function Offset(c: nat, p: nat, n: nat): nat
    requires c < n && p < n
  {
    if p >= c then p - c else p + n - c
  }

  lemma LandsAtOffset(c: nat, k: nat, p: nat, n: nat)
    requires c < n && p < n
    ensures (c + k) % n == p <==> k % n == Offset(c, p, n)
  {
    ModOfSum(k, c, n);
    WrapOnce(k % n + c, n);
  }

  lemma NextCount(k: nat, n: nat, offset: nat)
    requires n > 0 && offset < n
    ensures VisitsAt(k + 1, n, offset) == VisitsAt(k, n, offset) + if k % n == offset then 1 else 0
  {
    NextQuotient(k, n, k / n, k % n);
  }

  lemma NextQuotient(k: nat, n: nat, q: nat, r: nat)
    requires n > 0 && k == q * n + r && r < n
    ensures (k + 1) / n == if r + 1 < n then q else q + 1
    ensures (k + 1) % n == if r + 1 < n then r + 1 else 0
  {
    if r + 1 < n {
      Division(k + 1, n, q, r + 1);
    } else {
      assert k + 1 == (q + 1) * n + 0;
      Division(k + 1, n, q + 1, 0);
    }
  }

  /** Fairness: over a fixed list of distinct symbols, from any cursor, after any number of batches of any size,
      any two symbols have been visited equally often or with one visit's difference. */
  lemma BatchesAreFair(list: seq<Symbol>, c: nat, size: nat, rounds: nat, s: Symbol, t: Symbol)
    requires list != [] && Distinct(list) && c < |list| && s in list && t in list
    ensures var visited := Batches(list, c, size, rounds);
            Visits(visited, s) <= Visits(visited, t) + 1
  {
    var i :| 0 <= i < |list| && list[i] == s;
    var j :| 0 <= j < |list| && list[j] == t;
    BatchesAreCyclic(list, c, size, rounds);
    CyclicIsFair(list, c, rounds * size, i, j);
  }

  lemma CyclicIsFair(list: seq<Symbol>, c: nat, m: nat, i: nat, j: nat)
    requires Distinct(list) && c < |list| && i < |list| && j < |list|
    ensures Visits(Cyclic(list, c, m), list[i]) <= Visits(Cyclic(list, c, m), list[j]) + 1
  {
    VisitsOfPosition(list, c, m, i);
    VisitsOfPosition(list, c, m, j);
    VisitsAtClose(m, |list|, Offset(c, i, |list|), Offset(c, j, |list|));
  }

  // ---------------------------------------------------------------- the worker's cursors

  const UNIVERSE_BATCH_SIZE := 8

  /** How many positions a round visits: eight, but the walk never passes the end of the list twice, and not even
      once if it starts at the front. */
  function BatchLength(n: nat, c: nat): nat
    requires c < n
  {
    Smaller(UNIVERSE_BATCH_SIZE, if c == 0 then n else n - c + n)
  }

  function WorkerBatch(list: seq<Symbol>, c: nat): seq<Symbol>
    requires c < |list|
  {
    Cyclic(list, c, BatchLength(|list|, c))
  }

  /** One round of the backfill and snapshot loops: the next positions of the cyclic walk. A list of at least eight
      is walked eight at a time; a shorter one is covered by every round. */
  method NextWorkerBatch(list: seq<Symbol>, cursor: nat) returns (batch: seq<Symbol>, next: nat)
    requires list != []
    ensures var c := Clamp(cursor, |list|);
            && batch == Cyclic(list, c, BatchLength(|list|, c)) && next == (c + UNIVERSE_BATCH_SIZE) % |list|
            && (|list| >= UNIVERSE_BATCH_SIZE ==> |batch| == UNIVERSE_BATCH_SIZE)
            && (|list| < UNIVERSE_BATCH_SIZE ==> forall i :: 0 <= i < |list| ==> list[i] in batch)
  {
    var c := cursor;
    if c >= |list| {
      c := 0;
    }
    WorkerBatchMeaning(list, c);
    batch := SliceAndTopUp(list, c);
    next := (c + UNIVERSE_BATCH_SIZE) % |list|;
  }

  /** The slice, and what is missing to a full batch from the front of the list. */
  method SliceAndTopUp(list: seq<Symbol>, c: nat) returns (batch: seq<Symbol>)
    requires c < |list|
    ensures batch == WorkerBatch(list, c)
  {
    SliceIsCyclic(list, c, BatchLength(|list|, c));
    batch := list[c..Smaller(c + UNIVERSE_BATCH_SIZE, |list|)];
    if |batch| < UNIVERSE_BATCH_SIZE && c > 0 {
      batch := batch + list[..Smaller(UNIVERSE_BATCH_SIZE - |batch|, |list|)];
    }
  }

  /** The batches of `rounds` rounds, each from the cursor the last one left. */
  function WorkerRounds(list: seq<Symbol>, cursor: nat, rounds: nat): seq<Symbol>
    requires cursor < |list|
    decreases rounds
  {
    if rounds == 0 then [] else
    WorkerBatch(list, cursor) + WorkerRounds(list, (cursor + UNIVERSE_BATCH_SIZE) % |list|, rounds - 1)
  }

  /** With at least a batchful of symbols a round visits the next eight; with fewer it visits them all. */
  lemma WorkerBatchMeaning(list: seq<Symbol>, c: nat)
    requires c < |list|
    ensures |list| >= UNIVERSE_BATCH_SIZE ==> WorkerBatch(list, c) == Cyclic(list, c, UNIVERSE_BATCH_SIZE)
    ensures |list| < UNIVERSE_BATCH_SIZE ==> forall i :: 0 <= i < |list| ==> list[i] in WorkerBatch(list, c)
  {
    if |list| < UNIVERSE_BATCH_SIZE {
      forall i | 0 <= i < |list| ensures list[i] in WorkerBatch(list, c) {
        CyclicReaches(list, c, BatchLength(|list|, c), i);
      }
    }
  }

  lemma {:induction false} WorkerRoundsAreBatches(list: seq<Symbol>, c: nat, rounds: nat)
    requires c < |list| && |list| >= UNIVERSE_BATCH_SIZE
    ensures WorkerRounds(list, c, rounds) == Batches(list, c, UNIVERSE_BATCH_SIZE, rounds)
    decreases rounds
  {
    if rounds > 0 {
      WorkerRoundsAreBatches(list, (c + UNIVERSE_BATCH_SIZE) % |list|, rounds - 1);
      WorkerBatchMeaning(list, c);
    }
  }

  lemma CyclicReaches(list: seq<Symbol>, c: nat, n: nat, i: nat)
    requires c < |list| <= n && i < |list|
    ensures list[i] in Cyclic(list, c, n)
  {
    var k := Offset(c, i, |list|);
    WrapOnce(k, |list|);
    LandsAtOffset(c, k, i, |list|);
    assert Cyclic(list, c, n)[k] == list[i];
  }

  lemma FirstRound(list: seq<Symbol>, c: nat)
    requires c < |list|
    ensures WorkerRounds(list, c, 1) == WorkerBatch(list, c)
  {
    assert WorkerRounds(list, (c + UNIVERSE_BATCH_SIZE) % |list|, 0) == [];
  }

  /** Coverage: from any cursor, ceil(n / 8) rounds visit every symbol of an n-symbol list. */
  lemma WorkerRoundsCover(list: seq<Symbol>, c: nat, i: nat)
    requires c < |list| && i < |list|
    ensures list[i] in WorkerRounds(list, c, (|list| + UNIVERSE_BATCH_SIZE - 1) / UNIVERSE_BATCH_SIZE)
  {
    var rounds := (|list| + UNIVERSE_BATCH_SIZE - 1) / UNIVERSE_BATCH_SIZE;
    if |list| < UNIVERSE_BATCH_SIZE {
      FirstRound(list, c);
      WorkerBatchMeaning(list, c);
    } else {
      WorkerRoundsAreBatches(list, c, rounds);
      BatchesAreCyclic(list, c, UNIVERSE_BATCH_SIZE, rounds);
      CyclicReaches(list, c, rounds * UNIVERSE_BATCH_SIZE, i);
    }
  }
}
