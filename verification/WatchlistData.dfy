/** The quote worker's shared state: watched symbols, subscriptions, the paced subscription queue, and up to three
broker connections (shards); what each operation makes of it, and what every operation keeps.

Each operation of the worker is a function from state to state here. Three kinds of lemma say what it does:

- `...Sound`: it keeps the structural invariants;
- `...Meaning`: what the new state holds;
- `...Effects` and `...Serves`: what it is worth to a symbol, which is to be subscribed, queued or failed.

The methods of `WatchlistWorker` compute these functions, and the runs of `WatchlistRuns` are made of them. */
module WatchlistData {
  import opened Common

  const MAX_REALTIME_BAR_SUBSCRIPTIONS := 25
  const SHARD_THRESHOLD := 20
  const MAX_SHARDS := 3

  type Symbol = string

  /** Identity of a connection object; the primary is 0 and never replaced. */
  type Ib = nat

  datatype SymbolState = Queued | Waiting | Live | Failed

  datatype Item = Quote(symbol: Symbol) | Realtime(symbol: Symbol)

  /** How TWS takes a subscription request: also the two kinds of exception. */
  datatype Answer = Accepted | RateLimited | Rejected

  datatype Data = Data(
    shards: seq<Ib>, clientIds: seq<int>, connected: set<Ib>, nextIb: Ib,
    watchlist: seq<Symbol>, active: seq<Symbol>,
    tickers: set<Symbol>, contracts: set<Symbol>, shardOf: map<Symbol, nat>, rtBars: set<Symbol>,
    queue: seq<Item>, queuedQuotes: set<Symbol>, queuedRealtime: set<Symbol>,
    states: map<Symbol, SymbolState>,
    handlers: set<Symbol>)   // symbols with a tick handler: registered once, never removed

  // ---------------------------------------------------------------- symbols and shards

  function Dedupe(list: seq<Symbol>): seq<Symbol> {
    if list == [] then [] else
    var n := |list| - 1;
    Dedupe(list[..n]) + if list[n] in list[..n] then [] else [list[n]]
  }

  /** `_quote_symbols` */
  function QuoteSymbols(d: Data): seq<Symbol> { Dedupe(d.watchlist + d.active) }

  function Tracked(d: Data): set<Symbol> { set s | s in d.watchlist + d.active }

  predicate IsConnected(d: Data, i: nat) {
    i < |d.shards| && d.shards[i] in d.connected
  }

  predicate AnyConnected(d: Data) {
    exists ib :: ib in d.shards && ib in d.connected
  }

  function IndexIn(list: seq<Symbol>, s: Symbol): (i: nat)
    requires s in list
    ensures i < |list| && list[i] == s
  {
    if list[0] == s then 0 else 1 + IndexIn(list[1..], s)
  }

  lemma {:induction false} DedupeKeeps(list: seq<Symbol>, s: Symbol)
    ensures s in Dedupe(list) <==> s in list
  {
    if list != [] {
      var n := |list| - 1;
      DedupeKeeps(list[..n], s);
      assert list == list[..n] + [list[n]];
    }
  }

  predicate Distinct(list: seq<Symbol>) {
    forall i, j :: 0 <= i < j < |list| ==> list[i] != list[j]
  }

  /** Each symbol is kept once, and longer lists only add to the end. */
  lemma {:induction false} DedupeIsDistinct(list: seq<Symbol>, n: nat)
    requires n <= |list|
    ensures Distinct(Dedupe(list)) && Dedupe(list[..n]) <= Dedupe(list)
  {
    if list == [] || n == |list| {
      assert list[..n] == list;
      if list != [] { DedupeIsDistinct(list[..|list| - 1], 0); DedupeKeeps(list[..|list| - 1], list[|list| - 1]); }
    } else {
      var m := |list| - 1;
      DedupeIsDistinct(list[..m], n);
      DedupeKeeps(list[..m], list[m]);
      assert list[..m][..n] == list[..n];
    }
  }

  /** `_shard_for_symbol`, for a tracked symbol. */
  function ShardFor(d: Data, s: Symbol): nat
    requires d.shards != [] && s in Tracked(d)
  {
    if s in d.shardOf then d.shardOf[s]
    else if s in d.watchlist then IndexIn(d.watchlist, s) % |d.shards|
    else
      DedupeKeeps(d.watchlist + d.active, s);
      IndexIn(QuoteSymbols(d), s) % |d.shards|
  }

  lemma NeighboursDiffer(i: nat, j: nat, n: nat)
    requires 0 < j - i < n
    ensures i % n != j % n
  {
    if i % n == j % n {
      var p, q := i / n, j / n;
      assert i == p * n + i % n && j == q * n + j % n;
      assert j - i == (q - p) * n;
      if q - p >= 1 { MulMonotone(1, q - p, n); } else { MulMonotone(q - p, 0, n); }
    }
  }

  /** Symbols without a shard are spread evenly: any as many neighbours of the watchlist as there are shards go to
      different ones. */
  lemma NeighboursSpread(d: Data, i: nat, j: nat)
    requires Distinct(d.watchlist) && i < j < |d.watchlist| && j - i < |d.shards|
    requires d.watchlist[i] !in d.shardOf && d.watchlist[j] !in d.shardOf
    ensures ShardFor(d, d.watchlist[i]) != ShardFor(d, d.watchlist[j])
    ensures ShardFor(d, d.watchlist[i]) < |d.shards| && ShardFor(d, d.watchlist[j]) < |d.shards|
  {
    NeighboursDiffer(i, j, |d.shards|);
  }

  function FirstConnected(d: Data, i: nat): nat
    decreases |d.shards| - i
  {
    if i >= |d.shards| then 0 else if IsConnected(d, i) then i else FirstConnected(d, i + 1)
  }

  /** The shard a quote subscription goes to: its own if connected, else the first connected one. */
  function ShardToUse(d: Data, s: Symbol): nat
    requires d.shards != [] && s in Tracked(d)
  {
    if IsConnected(d, ShardFor(d, s)) then ShardFor(d, s) else FirstConnected(d, 0)
  }

  // ---------------------------------------------------------------- the closures' effects

  function QuoteQueued(d: Data, s: Symbol): Data {
    if s in d.tickers || s in d.queuedQuotes then d
    else d.(queuedQuotes := d.queuedQuotes + {s}, queue := d.queue + [Quote(s)])
  }

  function RealtimeQueued(d: Data, s: Symbol): Data {
    if s in d.rtBars || s in d.queuedRealtime then d
    else d.(queuedRealtime := d.queuedRealtime + {s}, queue := d.queue + [Realtime(s)])
  }

  function QuoteCancelled(d: Data, s: Symbol): Data {
    d.(tickers := d.tickers - {s}, contracts := d.contracts - {s},
       queuedQuotes := d.queuedQuotes - {s}, shardOf := d.shardOf - {s})
  }

  function RealtimeCancelled(d: Data, s: Symbol): Data {
    d.(rtBars := d.rtBars - {s}, queuedRealtime := d.queuedRealtime - {s})
  }

  function QuoteSubscribed(d: Data, s: Symbol): Data
    requires d.shards != [] && s in Tracked(d)
  {
    d.(tickers := d.tickers + {s}, contracts := d.contracts + {s}, shardOf := d.shardOf[s := ShardToUse(d, s)],
       states := d.states[s := Waiting], handlers := d.handlers + {s})
  }

  function QuotesQueued(d: Data, order: seq<Symbol>): Data {
    if order == [] then d else QuoteQueued(QuotesQueued(d, order[..|order| - 1]), order[|order| - 1])
  }

  function RealtimesQueued(d: Data, order: seq<Symbol>): Data {
    if order == [] then d else RealtimeQueued(RealtimesQueued(d, order[..|order| - 1]), order[|order| - 1])
  }

  function Marked(d: Data, order: seq<Symbol>): Data {
    if order == [] then d else
    var d' := Marked(d, order[..|order| - 1]);
    d'.(states := d'.states[order[|order| - 1] := Queued])
  }

  /** Removed symbols: subscription cancelled, state dropped. */
  function Dropped(d: Data, order: seq<Symbol>): Data {
    if order == [] then d else
    var d' := QuoteCancelled(Dropped(d, order[..|order| - 1]), order[|order| - 1]);
    d'.(states := d'.states - {order[|order| - 1]})
  }

  function RealtimesCancelled(d: Data, order: seq<Symbol>): Data {
    if order == [] then d else RealtimeCancelled(RealtimesCancelled(d, order[..|order| - 1]), order[|order| - 1])
  }

  /** Symbols of a shard that went away or came back: cancelled and queued again. */
  function Requeued(d: Data, order: seq<Symbol>): Data {
    if order == [] then d else
    QuoteQueued(QuoteCancelled(Requeued(d, order[..|order| - 1]), order[|order| - 1]), order[|order| - 1])
  }

  /** End of a watchlist refresh: the added symbols are marked, and queued if some shard is connected. */
  function WatchlistAdded(d: Data, order: seq<Symbol>): Data {
    if AnyConnected(d) then QuotesQueued(Marked(d, order), order) else Marked(d, order)
  }

  /** End of a refresh of the active symbols: the same, if the primary shard is connected. */
  function ActiveAdded(d: Data, order: seq<Symbol>, rtOrder: seq<Symbol>): Data {
    if IsConnected(d, 0) then RealtimesQueued(QuotesQueued(Marked(d, order), order), rtOrder) else Marked(d, order)
  }

  /** What a refresh drops. */
  function RemovedDropped(d: Data, order: seq<Symbol>, rtOrder: seq<Symbol>): Data {
    Dropped(RealtimesCancelled(d, rtOrder), order)
  }

  /** What the reconnect of the primary shard queues. */
  function Resubscribed(d: Data, symbols: seq<Symbol>): Data {
    RealtimesQueued(QuotesQueued(d, symbols), d.active)
  }

  function OnShard(d: Data, i: nat): set<Symbol> { set s | s in d.shardOf && d.shardOf[s] == i }

  /** A quote entry taken off the queue. */
  function QuotePopped(d: Data, s: Symbol, answer: Answer): Data
    requires d.shards != []
  {
    var d1 := d.(queuedQuotes := d.queuedQuotes - {s});
    if s !in Tracked(d) || s in d.tickers then d1
    else if answer == Accepted then QuoteSubscribed(d1, s)
    else if answer == RateLimited then QuoteQueued(d1, s)
    else d1.(states := d1.states[s := Failed])
  }

  /** A realtime-bar entry taken off the queue; at the cap, or when refused, it is dropped for good. */
  function RealtimePopped(d: Data, s: Symbol, answer: Answer): Data {
    var d1 := d.(queuedRealtime := d.queuedRealtime - {s});
    if s !in d.active || s in d.rtBars || |d.rtBars| >= MAX_REALTIME_BAR_SUBSCRIPTIONS then d1
    else if answer == Accepted then
      var d2 := RealtimeCancelled(d1, s);
      d2.(rtBars := d2.rtBars + {s})
    else RealtimeCancelled(d1, s)
  }

  /** One turn of the subscription loop. */
  function Popped(d: Data, answer: Answer): Data
    requires d.queue != [] && d.shards != []
  {
    var rest := d.(queue := d.queue[1..]);
    match d.queue[0]
    case Quote(s) => QuotePopped(rest, s, answer)
    case Realtime(s) => RealtimePopped(rest, s, answer)
  }

  /** Number of shards wanted for this many symbols. */
  function DesiredShards(symbols: nat): nat {
    if symbols <= SHARD_THRESHOLD then 1 else
    var wanted := (symbols + SHARD_THRESHOLD - 1) / SHARD_THRESHOLD;
    if wanted < MAX_SHARDS then wanted else MAX_SHARDS
  }

  function ShardAdded(d: Data, clientId: int): Data {
    d.(shards := d.shards + [d.nextIb], clientIds := d.clientIds + [clientId], nextIb := d.nextIb + 1)
  }

  /** The last shard torn down, its symbols (in `order`) requeued. */
  function ShardRemoved(d: Data, order: seq<Symbol>): Data
    requires d.shards != [] && d.clientIds != []
  {
    var ib := d.shards[|d.shards| - 1];
    var d' := Requeued(d.(shards := d.shards[..|d.shards| - 1], clientIds := d.clientIds[..|d.clientIds| - 1]), order);
    d'.(connected := d'.connected - {ib})
  }

  /** The primary shard is back: everything forgotten, to be queued again. */
  function Cleared(d: Data): Data {
    d.(tickers := {}, contracts := {}, shardOf := map[], rtBars := {},
       queue := [], queuedQuotes := {}, queuedRealtime := {})
  }

  function InitialData(clientId: int): Data {
    Data([0], [clientId], {}, 1, [], [], {}, {}, map[], {}, [], {}, {}, map[], {})
  }

  function SetOf(list: seq<Symbol>): set<Symbol> { set s | s in list }

  /** `order` goes through the set once. */
  predicate Enumerates(order: seq<Symbol>, symbols: set<Symbol>) {
    SetOf(order) == symbols && |order| == |symbols|
  }

  // ---------------------------------------------------------------- structure

  /** Equal key sets, shard numbers in range, one to three shards with as many client ids, at most 25 realtime
      subscriptions, and every symbol flagged as queued really in the queue. */
  ghost predicate SoundData(d: Data) {
    && 1 <= |d.shards| <= MAX_SHARDS && |d.clientIds| == |d.shards|
    && d.shards[0] == 0
    && (forall i :: 0 <= i < |d.shards| ==> d.shards[i] < d.nextIb)
    && (forall i, j :: 0 <= i < j < |d.shards| ==> d.shards[i] != d.shards[j])
    && d.tickers == d.contracts == d.shardOf.Keys
    && (forall s :: s in d.shardOf ==> d.shardOf[s] < |d.shards|)
    && |d.rtBars| <= MAX_REALTIME_BAR_SUBSCRIPTIONS
    && (forall s :: s in d.queuedQuotes ==> Quote(s) in d.queue)
    && (forall s :: s in d.queuedRealtime ==> Realtime(s) in d.queue)
  }

  lemma QuoteQueuedSound(d: Data, s: Symbol)
    requires SoundData(d)
    ensures SoundData(QuoteQueued(d, s))
  {
    var d' := QuoteQueued(d, s);
    forall x | x in d'.queuedQuotes ensures Quote(x) in d'.queue {
      if x in d.queuedQuotes { assert Quote(x) in d.queue; } else { assert d'.queue[|d.queue|] == Quote(x); }
    }
  }

  lemma RealtimeQueuedSound(d: Data, s: Symbol)
    requires SoundData(d)
    ensures SoundData(RealtimeQueued(d, s))
  {
    var d' := RealtimeQueued(d, s);
    forall x | x in d'.queuedRealtime ensures Realtime(x) in d'.queue {
      if x in d.queuedRealtime { assert Realtime(x) in d.queue; } else { assert d'.queue[|d.queue|] == Realtime(x); }
    }
  }

  lemma QuoteCancelledSound(d: Data, s: Symbol)
    requires SoundData(d)
    ensures SoundData(QuoteCancelled(d, s))
  {
  }

  lemma RealtimeCancelledSound(d: Data, s: Symbol)
    requires SoundData(d)
    ensures SoundData(RealtimeCancelled(d, s))
  {
    SubsetSize(d.rtBars - {s}, d.rtBars);
  }

  lemma {:induction false} QuotesQueuedSound(d: Data, order: seq<Symbol>)
    requires SoundData(d)
    ensures SoundData(QuotesQueued(d, order))
  {
    if order != [] {
      QuotesQueuedSound(d, order[..|order| - 1]);
      QuoteQueuedSound(QuotesQueued(d, order[..|order| - 1]), order[|order| - 1]);
    }
  }

  lemma {:induction false} RealtimesQueuedSound(d: Data, order: seq<Symbol>)
    requires SoundData(d)
    ensures SoundData(RealtimesQueued(d, order))
  {
    if order != [] {
      RealtimesQueuedSound(d, order[..|order| - 1]);
      RealtimeQueuedSound(RealtimesQueued(d, order[..|order| - 1]), order[|order| - 1]);
    }
  }

  lemma {:induction false} MarkedSound(d: Data, order: seq<Symbol>)
    requires SoundData(d)
    ensures SoundData(Marked(d, order))
  {
    if order != [] { MarkedSound(d, order[..|order| - 1]); }
  }

  lemma {:induction false} DroppedSound(d: Data, order: seq<Symbol>)
    requires SoundData(d)
    ensures SoundData(Dropped(d, order))
  {
    if order != [] {
      DroppedSound(d, order[..|order| - 1]);
      QuoteCancelledSound(Dropped(d, order[..|order| - 1]), order[|order| - 1]);
    }
  }

  lemma {:induction false} RealtimesCancelledSound(d: Data, order: seq<Symbol>)
    requires SoundData(d)
    ensures SoundData(RealtimesCancelled(d, order))
  {
    if order != [] {
      RealtimesCancelledSound(d, order[..|order| - 1]);
      RealtimeCancelledSound(RealtimesCancelled(d, order[..|order| - 1]), order[|order| - 1]);
    }
  }

  lemma {:induction false} RequeuedSound(d: Data, order: seq<Symbol>)
    requires SoundData(d)
    ensures SoundData(Requeued(d, order))
  {
    if order != [] {
      var d' := Requeued(d, order[..|order| - 1]);
      RequeuedSound(d, order[..|order| - 1]);
      QuoteCancelledSound(d', order[|order| - 1]);
      QuoteQueuedSound(QuoteCancelled(d', order[|order| - 1]), order[|order| - 1]);
    }
  }

  lemma {:induction false} RequeuedEffects(d: Data, order: seq<Symbol>)
    ensures var d' := Requeued(d, order);
            && d'.shards == d.shards && d'.clientIds == d.clientIds
            && d'.connected == d.connected && d'.nextIb == d.nextIb
            && d'.watchlist == d.watchlist && d'.active == d.active && d'.states == d.states
            && d'.shardOf == d.shardOf - SetOf(order)
  {
    if order != [] {
      var n := |order| - 1;
      RequeuedEffects(d, order[..n]);
      assert SetOf(order) == SetOf(order[..n]) + {order[n]};
    }
  }

  /** Tearing down the last shard and requeueing its symbols can be looked at in either order. */
  lemma {:induction false} RequeueIgnoresShards(d: Data, shards: seq<Ib>, clientIds: seq<int>, order: seq<Symbol>)
    ensures Requeued(d.(shards := shards, clientIds := clientIds), order)
         == Requeued(d, order).(shards := shards, clientIds := clientIds)
  {
    if order != [] { RequeueIgnoresShards(d, shards, clientIds, order[..|order| - 1]); }
  }

  lemma ShardRemovedSound(d: Data, order: seq<Symbol>)
    requires SoundData(d) && |d.shards| > 1 && Enumerates(order, OnShard(d, |d.shards| - 1))
    ensures SoundData(ShardRemoved(d, order))
  {
    var n := |d.shards| - 1;
    RequeuedSound(d, order);
    RequeuedEffects(d, order);
    RequeueIgnoresShards(d, d.shards[..n], d.clientIds[..n], order);
    var requeued := Requeued(d, order);
    forall s | s in requeued.shardOf ensures requeued.shardOf[s] < n {
      assert s !in OnShard(d, n);
    }
  }

  lemma QuotePoppedSound(d: Data, s: Symbol, answer: Answer)
    requires SoundData(d.(queuedQuotes := d.queuedQuotes - {s}))
    ensures SoundData(QuotePopped(d, s, answer))
  {
    var d1 := d.(queuedQuotes := d.queuedQuotes - {s});
    if s in Tracked(d) && s !in d.tickers {
      if answer == Accepted {
        ShardToUseInRange(d1, s);
      } else if answer == RateLimited {
        QuoteQueuedSound(d1, s);
      }
    }
  }

  lemma ShardToUseInRange(d: Data, s: Symbol)
    requires SoundData(d) && s in Tracked(d)
    ensures ShardToUse(d, s) < |d.shards|
  {
    FirstConnectedInRange(d, 0);
  }

  lemma {:induction false} FirstConnectedInRange(d: Data, i: nat)
    requires |d.shards| >= 1
    ensures FirstConnected(d, i) < |d.shards|
    decreases |d.shards| - i
  {
    if i < |d.shards| { FirstConnectedInRange(d, i + 1); }
  }

  lemma RealtimePoppedSound(d: Data, s: Symbol, answer: Answer)
    requires SoundData(d.(queuedRealtime := d.queuedRealtime - {s}))
    ensures SoundData(RealtimePopped(d, s, answer))
  {
    RealtimeCancelledSound(d.(queuedRealtime := d.queuedRealtime - {s}), s);
  }

  lemma PoppedSound(d: Data, answer: Answer)
    requires SoundData(d) && d.queue != []
    ensures SoundData(Popped(d, answer))
  {
    var rest := d.(queue := d.queue[1..]);
    assert forall item :: item in d.queue ==> item == d.queue[0] || item in d.queue[1..];
    match d.queue[0]
    case Quote(s) => QuotePoppedSound(rest, s, answer);
    case Realtime(s) => RealtimePoppedSound(rest, s, answer);
  }

  /** The fewest shards of at most 20 symbols each, up to three. */
  lemma DesiredInRange(n: nat)
    ensures 1 <= DesiredShards(n) <= MAX_SHARDS
    ensures DesiredShards(n) < 3 ==> n <= 20 * DesiredShards(n)
    ensures DesiredShards(n) > 1 ==> n > 20 * (DesiredShards(n) - 1)
  {
  }

  lemma {:induction false} DroppedEffects(d: Data, order: seq<Symbol>)
    ensures var d' := Dropped(d, order);
            && d'.shards == d.shards && d'.connected == d.connected && d'.nextIb == d.nextIb
            && d'.watchlist == d.watchlist && d'.active == d.active
            && d'.tickers == d.tickers - SetOf(order) && d'.queuedQuotes == d.queuedQuotes - SetOf(order)
            && d'.states == d.states - SetOf(order)
  {
    if order != [] {
      var n := |order| - 1;
      DroppedEffects(d, order[..n]);
      assert SetOf(order) == SetOf(order[..n]) + {order[n]};
    }
  }

  lemma {:induction false} RealtimesCancelledEffects(d: Data, order: seq<Symbol>)
    ensures var d' := RealtimesCancelled(d, order);
            && d'.shards == d.shards && d'.connected == d.connected && d'.nextIb == d.nextIb
            && d'.watchlist == d.watchlist && d'.active == d.active
            && d'.tickers == d.tickers && d'.queuedQuotes == d.queuedQuotes && d'.states == d.states
  {
    if order != [] { RealtimesCancelledEffects(d, order[..|order| - 1]); }
  }

  lemma {:induction false} RealtimesCancelledPlaces(d: Data, order: seq<Symbol>)
    ensures var d' := RealtimesCancelled(d, order);
            d'.rtBars == d.rtBars - SetOf(order) && d'.shardOf == d.shardOf && d'.contracts == d.contracts
  {
    if order != [] {
      var n := |order| - 1;
      RealtimesCancelledPlaces(d, order[..n]);
      assert SetOf(order) == SetOf(order[..n]) + {order[n]};
    }
  }

  lemma {:induction false} DroppedPlaces(d: Data, order: seq<Symbol>)
    ensures Dropped(d, order).shardOf == d.shardOf - SetOf(order) && Dropped(d, order).rtBars == d.rtBars
  {
    if order != [] {
      var n := |order| - 1;
      DroppedPlaces(d, order[..n]);
      assert SetOf(order) == SetOf(order[..n]) + {order[n]};
    }
  }

  lemma {:induction false} QuotesQueuedEffects(d: Data, order: seq<Symbol>)
    ensures var d' := QuotesQueued(d, order);
            && d'.shards == d.shards && d'.connected == d.connected && d'.nextIb == d.nextIb
            && d'.watchlist == d.watchlist && d'.active == d.active
            && d'.tickers == d.tickers && d'.states == d.states
            && d'.shardOf == d.shardOf && d'.rtBars == d.rtBars
            && d'.tickers + d'.queuedQuotes == d.tickers + d.queuedQuotes + SetOf(order)
  {
    if order != [] {
      var n := |order| - 1;
      QuotesQueuedEffects(d, order[..n]);
      assert SetOf(order) == SetOf(order[..n]) + {order[n]};
    }
  }

  lemma {:induction false} RealtimesQueuedEffects(d: Data, order: seq<Symbol>)
    ensures var d' := RealtimesQueued(d, order);
            && d'.shards == d.shards && d'.connected == d.connected && d'.nextIb == d.nextIb
            && d'.watchlist == d.watchlist && d'.active == d.active
            && d'.tickers == d.tickers && d'.queuedQuotes == d.queuedQuotes && d'.states == d.states
            && d'.shardOf == d.shardOf && d'.rtBars == d.rtBars
  {
    if order != [] { RealtimesQueuedEffects(d, order[..|order| - 1]); }
  }

  lemma {:induction false} MarkedEffects(d: Data, order: seq<Symbol>)
    ensures var d' := Marked(d, order);
            && d' == d.(states := d'.states)
            && forall s :: s !in order ==>
                (s in d'.states <==> s in d.states) && (s in d.states ==> d'.states[s] == d.states[s])
  {
    if order != [] {
      var n := |order| - 1;
      MarkedEffects(d, order[..n]);
      assert order == order[..n] + [order[n]];
    }
  }

  lemma {:induction false} MarkedIsQueued(d: Data, order: seq<Symbol>, s: Symbol)
    ensures s in order ==> s in Marked(d, order).states && Marked(d, order).states[s] == Queued
  {
    if s in order && s != order[|order| - 1] { MarkedIsQueued(d, order[..|order| - 1], s); }
  }

  lemma {:induction false} RealtimesAreQueued(d: Data, order: seq<Symbol>, s: Symbol)
    ensures s in order ==> s in RealtimesQueued(d, order).rtBars || s in RealtimesQueued(d, order).queuedRealtime
  {
    if s in order && s != order[|order| - 1] { RealtimesAreQueued(d, order[..|order| - 1], s); }
  }

  lemma ConnectionsSound(d: Data, connected: set<Ib>, watchlist: seq<Symbol>, active: seq<Symbol>,
      states: map<Symbol, SymbolState>)
    requires SoundData(d)
    ensures SoundData(d.(connected := connected, watchlist := watchlist, active := active, states := states))
  {
  }

  lemma ShardAddedSound(d: Data, clientId: int)
    requires SoundData(d) && |d.shards| < MAX_SHARDS
    ensures SoundData(ShardAdded(d, clientId))
  {
  }

  lemma ClientIdSound(d: Data, i: nat, clientId: int)
    requires SoundData(d) && i < |d.clientIds|
    ensures SoundData(d.(clientIds := d.clientIds[i := clientId]))
  {
  }

  lemma ClearedSound(d: Data)
    requires SoundData(d)
    ensures SoundData(Cleared(d))
  {
  }

  lemma AddedQueuedSound(d: Data, order: seq<Symbol>, rtOrder: seq<Symbol>)
    requires SoundData(d)
    ensures SoundData(Marked(d, order)) && SoundData(QuotesQueued(Marked(d, order), order))
    ensures SoundData(RealtimesQueued(QuotesQueued(Marked(d, order), order), rtOrder))
  {
    MarkedSound(d, order);
    QuotesQueuedSound(Marked(d, order), order);
    RealtimesQueuedSound(QuotesQueued(Marked(d, order), order), rtOrder);
  }

  // ---------------------------------------------------------------- who is served

  /** The symbol has a subscription, a place in the queue, or a reported error. */
  predicate Served(d: Data, s: Symbol) {
    s in d.tickers || s in d.queuedQuotes || (s in d.states && d.states[s] == Failed)
  }

  lemma {:induction false} RequeuedServes(d: Data, order: seq<Symbol>, s: Symbol)
    requires Served(d, s)
    ensures Served(Requeued(d, order), s)
  {
    if order != [] { RequeuedServes(d, order[..|order| - 1], s); }
  }

  lemma PoppedServes(d: Data, answer: Answer, s: Symbol)
    requires d.queue != [] && d.shards != [] && s in Tracked(d) && Served(d, s)
    ensures Served(Popped(d, answer), s)
  {
  }

  lemma PoppedKeeps(d: Data, answer: Answer)
    requires d.queue != [] && d.shards != []
    ensures var d' := Popped(d, answer);
            d'.watchlist == d.watchlist && d'.active == d.active && d'.connected == d.connected && d'.shards == d.shards
  {
  }

  lemma QueuedServes(d: Data, order: seq<Symbol>, s: Symbol)
    requires s in order || Served(d, s)
    ensures Served(QuotesQueued(d, order), s)
  {
    QuotesQueuedEffects(d, order);
    var d' := QuotesQueued(d, order);
    assert s in d.tickers + d.queuedQuotes + SetOf(order) ==> s in d'.tickers + d'.queuedQuotes;
  }

  /** Dropping serves everyone but the dropped as before, and the dropped not at all. */
  lemma DroppedServes(d: Data, order: seq<Symbol>, rtOrder: seq<Symbol>, s: Symbol)
    ensures Served(RemovedDropped(d, order, rtOrder), s) <==> Served(d, s) && s !in order
  {
    RealtimesCancelledEffects(d, rtOrder);
    DroppedEffects(RealtimesCancelled(d, rtOrder), order);
  }

  /** A symbol that an ended refresh should queue is queued, and nobody else is affected. */
  lemma AddedServes(d: Data, order: seq<Symbol>, rtOrder: seq<Symbol>, s: Symbol)
    requires s in order || Served(d, s)
    ensures AnyConnected(d) ==> Served(WatchlistAdded(d, order), s)
    ensures IsConnected(d, 0) ==> Served(ActiveAdded(d, order, rtOrder), s)
  {
    var marked := Marked(d, order);
    MarkedEffects(d, order);
    QueuedServes(marked, order, s);
    RealtimesQueuedEffects(QuotesQueued(marked, order), rtOrder);
  }

  lemma ResubscribedServes(d: Data, symbols: seq<Symbol>, s: Symbol)
    requires s in symbols || Served(d, s)
    ensures Served(Resubscribed(d, symbols), s)
  {
    QueuedServes(d, symbols, s);
    RealtimesQueuedEffects(QuotesQueued(d, symbols), d.active);
  }

  /** Requeueing puts a symbol back in the queue and takes its subscription away. */
  lemma {:induction false} RequeuedIsQueued(d: Data, order: seq<Symbol>, s: Symbol)
    requires s in order
    ensures s in Requeued(d, order).queuedQuotes && s !in Requeued(d, order).tickers
  {
    var n := |order| - 1;
    if s != order[n] {
      assert s in order[..n];
      RequeuedIsQueued(d, order[..n], s);
    }
  }

  /** And leaves everyone else alone. */
  lemma {:induction false} RequeuedLeavesOthers(d: Data, order: seq<Symbol>)
    ensures d.queue <= Requeued(d, order).queue
    ensures Requeued(d, order).rtBars == d.rtBars && Requeued(d, order).queuedRealtime == d.queuedRealtime
    ensures forall s :: s !in order ==>
              && (s in Requeued(d, order).tickers <==> s in d.tickers)
              && (s in Requeued(d, order).queuedQuotes <==> s in d.queuedQuotes)
  {
    if order != [] {
      var n := |order| - 1;
      RequeuedLeavesOthers(d, order[..n]);
      assert order == order[..n] + [order[n]];
    }
  }

  /** The shard search finds a connected shard if there is one, and the first. */
  lemma {:induction false} FirstConnectedIsFirst(d: Data, i: nat, j: nat)
    requires i <= j < |d.shards| && IsConnected(d, j)
    ensures i <= FirstConnected(d, i) <= j && IsConnected(d, FirstConnected(d, i))
    decreases j - i
  {
    if !IsConnected(d, i) { FirstConnectedIsFirst(d, i + 1, j); }
  }

  /** A subscription goes to a connected shard whenever there is one. */
  lemma ShardToUseConnected(d: Data, s: Symbol)
    requires d.shards != [] && s in Tracked(d) && AnyConnected(d)
    ensures IsConnected(d, ShardToUse(d, s))
  {
    var ib :| ib in d.shards && ib in d.connected;
    var j :| 0 <= j < |d.shards| && d.shards[j] == ib;
    FirstConnectedIsFirst(d, 0, j);
  }

  // ---------------------------------------------------------------- the operations' worth, in one place each

  lemma QuoteSubscribedMeaning(d: Data, s: Symbol)
    requires SoundData(d) && s in Tracked(d)
    ensures SoundData(QuoteSubscribed(d, s)) && ShardToUse(d, s) < |d.shards|
    ensures var d' := QuoteSubscribed(d, s);
            && (AnyConnected(d') ==> IsConnected(d', ShardToUse(d, s)))
            && (s in d.shardOf && IsConnected(d', d.shardOf[s]) ==> ShardToUse(d, s) == d.shardOf[s])
  {
    ShardToUseInRange(d, s);
    if AnyConnected(d) { ShardToUseConnected(d, s); }
  }

  lemma QuotePoppedMeaning(d: Data, s: Symbol, answer: Answer)
    requires SoundData(d.(queuedQuotes := d.queuedQuotes - {s}))
    ensures var d' := QuotePopped(d, s, answer);
            && SoundData(d')
            && (s in Tracked(d') ==>
                  if answer == Accepted then s in d'.tickers
                  else if answer == RateLimited then s in d'.tickers + d'.queuedQuotes
                  else s in d'.tickers || (s in d'.states && d'.states[s] == Failed))
            && (forall x :: x != s ==> (Served(d', x) <==> Served(d, x)))
            && (answer != RateLimited ==> d'.queue == d.queue)
  {
    QuotePoppedSound(d, s, answer);
  }

  lemma RealtimePoppedMeaning(d: Data, s: Symbol, answer: Answer)
    requires SoundData(d.(queuedRealtime := d.queuedRealtime - {s}))
    ensures var d' := RealtimePopped(d, s, answer);
            && SoundData(d') && s !in d'.queuedRealtime && d'.rtBars - {s} == d.rtBars - {s} && d'.queue == d.queue
            && (s in d'.rtBars <==>
                s in d.rtBars || (s in d.active && |d.rtBars| < MAX_REALTIME_BAR_SUBSCRIPTIONS && answer == Accepted))
            && (forall x :: Served(d', x) <==> Served(d, x))
  {
    RealtimePoppedSound(d, s, answer);
  }

  /** Once the flag of the first entry is dropped, the rest of the queue is in order. */
  lemma PoppedReady(d: Data)
    requires SoundData(d) && d.queue != []
    ensures var rest := d.(queue := d.queue[1..]);
            match d.queue[0]
            case Quote(s) => SoundData(rest.(queuedQuotes := d.queuedQuotes - {s}))
            case Realtime(s) => SoundData(rest.(queuedRealtime := d.queuedRealtime - {s}))
  {
    assert forall item :: item in d.queue ==> item == d.queue[0] || item in d.queue[1..];
  }

  lemma WatchlistAddedMeaning(d: Data, order: seq<Symbol>)
    requires SoundData(d)
    ensures SoundData(WatchlistAdded(d, order)) && AnyConnected(WatchlistAdded(d, order)) == AnyConnected(d)
    ensures AnyConnected(d) ==> forall x :: x in order || Served(d, x) ==> Served(WatchlistAdded(d, order), x)
  {
    AddedQueuedSound(d, order, []);
    MarkedEffects(d, order);
    QuotesQueuedEffects(Marked(d, order), order);
    if AnyConnected(d) {
      forall x | x in order || Served(d, x) ensures Served(WatchlistAdded(d, order), x) {
        AddedServes(d, order, [], x);
      }
    }
  }

  lemma ActiveAddedMeaning(d: Data, order: seq<Symbol>, rtOrder: seq<Symbol>)
    requires SoundData(d)
    ensures SoundData(ActiveAdded(d, order, rtOrder))
            && IsConnected(ActiveAdded(d, order, rtOrder), 0) == IsConnected(d, 0)
    ensures IsConnected(d, 0) ==> forall x :: x in order || Served(d, x) ==> Served(ActiveAdded(d, order, rtOrder), x)
  {
    AddedQueuedSound(d, order, rtOrder);
    MarkedEffects(d, order);
    QuotesQueuedEffects(Marked(d, order), order);
    RealtimesQueuedEffects(QuotesQueued(Marked(d, order), order), rtOrder);
    if IsConnected(d, 0) {
      forall x | x in order || Served(d, x) ensures Served(ActiveAdded(d, order, rtOrder), x) {
        AddedServes(d, order, rtOrder, x);
      }
    }
  }

  lemma ShardRemovedMeaning(d: Data, order: seq<Symbol>)
    requires SoundData(d) && |d.shards| > 1 && Enumerates(order, OnShard(d, |d.shards| - 1))
    ensures var d' := ShardRemoved(d, order);
            && SoundData(d') && |d'.shards| == |d'.clientIds| == |d.shards| - 1
            && (forall s :: s in order ==> s in d'.queuedQuotes && s !in d'.tickers)
            && (forall x :: Served(d, x) ==> Served(d', x))
  {
    var n := |d.shards| - 1;
    var smaller := d.(shards := d.shards[..n], clientIds := d.clientIds[..n]);
    ShardRemovedSound(d, order);
    RequeuedEffects(smaller, order);
    forall s | s in order ensures s in Requeued(smaller, order).queuedQuotes && s !in Requeued(smaller, order).tickers {
      RequeuedIsQueued(smaller, order, s);
    }
    forall x | Served(d, x) ensures Served(ShardRemoved(d, order), x) { RequeuedServes(smaller, order, x); }
  }

  lemma ResubscribedMeaning(d: Data, symbols: seq<Symbol>)
    requires SoundData(d)
    ensures SoundData(Resubscribed(d, symbols))
    ensures forall x :: x in symbols || Served(d, x) ==> Served(Resubscribed(d, symbols), x)
  {
    QuotesQueuedSound(d, symbols);
    RealtimesQueuedSound(QuotesQueued(d, symbols), d.active);
    forall x | x in symbols || Served(d, x) ensures Served(Resubscribed(d, symbols), x) {
      ResubscribedServes(d, symbols, x);
    }
  }

  lemma ClearedMeaning(d: Data)
    requires SoundData(d)
    ensures SoundData(Cleared(d)) && QuoteSymbols(Cleared(d)) == QuoteSymbols(d) && Tracked(Cleared(d)) == Tracked(d)
    ensures forall s :: s in QuoteSymbols(d) <==> s in Tracked(d)
    ensures forall s :: Served(Cleared(d), s) ==> s in d.states && d.states[s] == Failed
  {
    ClearedSound(d);
    forall s ensures s in QuoteSymbols(d) <==> s in Tracked(d) { DedupeKeeps(d.watchlist + d.active, s); }
  }
}
