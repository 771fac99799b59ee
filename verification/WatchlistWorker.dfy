/** The quote worker's object: the methods its coroutines call between two awaits. Each is tied to what it makes of
the state (`WatchlistData`), and states what that is worth to a symbol. */
module WatchlistWorker {
  import opened WatchlistData

  class WorkerLoop {
    var shards: seq<Ib>
    var clientIds: seq<int>
    var connected: set<Ib>
    var nextIb: Ib
    var watchlist: seq<Symbol>
    var active: seq<Symbol>
    var tickers: set<Symbol>
    var contracts: set<Symbol>
    var shardOf: map<Symbol, nat>
    var rtBars: set<Symbol>
    var queue: seq<Item>
    var queuedQuotes: set<Symbol>
    var queuedRealtime: set<Symbol>
    var states: map<Symbol, SymbolState>
    var handlers: set<Symbol>

    constructor (clientId: int)
      ensures Now() == InitialData(clientId) && Valid()
    {
      shards, clientIds, connected, nextIb := [0], [clientId], {}, 1;
      watchlist, active, tickers, contracts, shardOf, rtBars := [], [], {}, {}, map[], {};
      queue, queuedQuotes, queuedRealtime, states, handlers := [], {}, {}, map[], {};
    }

    function Now(): Data
      reads this
    {
      Data(shards, clientIds, connected, nextIb, watchlist, active, tickers, contracts, shardOf, rtBars,
           queue, queuedQuotes, queuedRealtime, states, handlers)
    }

    ghost predicate Valid()
      reads this
    {
      SoundData(Now())
    }

    predicate IsServed(s: Symbol)
      reads this
    {
      Served(Now(), s)
    }

    // ---- one symbol

    /** The symbol is served from now on; one entry joins the queue, unless it is subscribed or waiting already. */
    method QueueQuote(s: Symbol)
      modifies this
      ensures Now() == QuoteQueued(old(Now()), s) && (old(Valid()) ==> Valid())
      ensures IsServed(s) && forall x :: old(IsServed(x)) ==> IsServed(x)
      ensures queue == old(queue) + (if s in old(tickers + queuedQuotes) then [] else [Quote(s)])
    {
      if Valid() { QuoteQueuedSound(Now(), s); }
      if s in tickers || s in queuedQuotes {
        return;
      }
      queuedQuotes := queuedQuotes + {s};
      queue := queue + [Quote(s)];
    }

    /** The same for realtime bars; quotes are not affected. */
    method QueueRealtime(s: Symbol)
      modifies this
      ensures Now() == RealtimeQueued(old(Now()), s) && (old(Valid()) ==> Valid())
      ensures s in rtBars + queuedRealtime && forall x :: IsServed(x) <==> old(IsServed(x))
      ensures queue == old(queue) + (if s in old(rtBars + queuedRealtime) then [] else [Realtime(s)])
    {
      if Valid() { RealtimeQueuedSound(Now(), s); }
      if s in rtBars || s in queuedRealtime {
        return;
      }
      queuedRealtime := queuedRealtime + {s};
      queue := queue + [Realtime(s)];
    }

    /** Nothing is left of the subscription; the queue is not searched, so a waiting entry stays. */
    method CancelQuoteSubscription(s: Symbol)
      modifies this
      ensures Now() == QuoteCancelled(old(Now()), s) && (old(Valid()) ==> Valid())
      ensures s !in tickers + contracts + queuedQuotes + shardOf.Keys && queue == old(queue)
      ensures forall x :: x != s ==> (IsServed(x) <==> old(IsServed(x)))
    {
      if Valid() { QuoteCancelledSound(Now(), s); }
      tickers := tickers - {s};
      contracts := contracts - {s};
      queuedQuotes := queuedQuotes - {s};
      shardOf := shardOf - {s};
    }

    method CancelRealtimeSubscription(s: Symbol)
      modifies this
      ensures Now() == RealtimeCancelled(old(Now()), s) && (old(Valid()) ==> Valid())
      ensures s !in rtBars + queuedRealtime && forall x :: IsServed(x) <==> old(IsServed(x))
    {
      if Valid() { RealtimeCancelledSound(Now(), s); }
      rtBars := rtBars - {s};
      queuedRealtime := queuedRealtime - {s};
    }

    method FirstConnectedShard() returns (shard: nat)
      ensures shard == FirstConnected(Now(), 0)
    {
      shard := 0;
      while shard < |shards|
        invariant shard <= |shards| && FirstConnected(Now(), 0) == FirstConnected(Now(), shard)
      {
        if shards[shard] in connected {
          return;
        }
        shard := shard + 1;
      }
      return 0;
    }

    method ChooseShard(s: Symbol) returns (shard: nat)
      requires shards != [] && s in Tracked(Now())
      ensures shard == ShardToUse(Now(), s)
    {
      shard := ShardFor(Now(), s);
      if shard >= |shards| || shards[shard] !in connected {
        shard := FirstConnectedShard();
      }
    }

    /** The subscription goes to a connected shard whenever there is one, and stays on its own if that one is. */
    method SubscribeQuote(s: Symbol)
      requires Valid() && s in Tracked(Now())
      modifies this
      ensures Now() == QuoteSubscribed(old(Now()), s) && Valid()
      ensures s in tickers && s in shardOf && shardOf[s] < |shards|
      ensures AnyConnected(Now()) ==> IsConnected(Now(), shardOf[s])
      ensures old(s in shardOf && IsConnected(Now(), shardOf[s])) ==> shardOf[s] == old(shardOf[s])
    {
      QuoteSubscribedMeaning(Now(), s);
      var shard := ChooseShard(s);
      tickers := tickers + {s};
      contracts := contracts + {s};
      shardOf := shardOf[s := shard];
      states := states[s := Waiting];
      handlers := handlers + {s};
    }

    // ---- the subscription loop

    /** A quote entry just taken off the queue. A tracked symbol stays served whatever TWS answers: subscribed,
        queued again, or reported as failed; nobody else is affected. */
    method PopQuote(s: Symbol, answer: Answer)
      requires SoundData(Now().(queuedQuotes := queuedQuotes - {s}))
      modifies this
      ensures Now() == QuotePopped(old(Now()), s, answer) && Valid()
      ensures s in Tracked(Now()) ==>
                if answer == Accepted then s in tickers
                else if answer == RateLimited then s in tickers + queuedQuotes
                else s in tickers || (s in states && states[s] == Failed)
      ensures forall x :: x != s ==> (IsServed(x) <==> old(IsServed(x)))
      ensures answer != RateLimited ==> queue == old(queue)
    {
      QuotePoppedMeaning(Now(), s, answer);
      queuedQuotes := queuedQuotes - {s};
      if s !in watchlist + active {
        return;
      }
      if s in tickers {
        return;
      }
      match answer {
        case Accepted => SubscribeQuote(s);
        case RateLimited => QueueQuote(s);
        case Rejected => states := states[s := Failed];
      }
    }

    /** A realtime entry just taken off the queue: subscribed if it is wanted, accepted and below the cap; else it
        is dropped for good. Quotes are not affected. */
    method PopRealtime(s: Symbol, answer: Answer)
      requires SoundData(Now().(queuedRealtime := queuedRealtime - {s}))
      modifies this
      ensures Now() == RealtimePopped(old(Now()), s, answer) && Valid()
      ensures s !in queuedRealtime && rtBars - {s} == old(rtBars) - {s} && queue == old(queue)
      ensures s in rtBars <==>
              s in old(rtBars) || (s in active && |old(rtBars)| < MAX_REALTIME_BAR_SUBSCRIPTIONS && answer == Accepted)
      ensures forall x :: IsServed(x) <==> old(IsServed(x))
    {
      RealtimePoppedMeaning(Now(), s, answer);
      queuedRealtime := queuedRealtime - {s};
      if s !in active {
        return;
      }
      if s in rtBars {
        return;
      }
      if |rtBars| >= MAX_REALTIME_BAR_SUBSCRIPTIONS {
        return;
      }
      CancelRealtimeSubscription(s);
      if answer == Accepted {
        rtBars := rtBars + {s};
      }
    }

    /** One turn of `subscription_loop` with something queued and some shard connected: every tracked symbol that
        was served still is, and the entry is gone unless it was rate limited. */
    method PopSubscription(answer: Answer)
      requires Valid() && queue != []
      modifies this
      ensures Now() == Popped(old(Now()), answer) && Valid()
      ensures forall x :: x in Tracked(Now()) && old(IsServed(x)) ==> IsServed(x)
      ensures answer != RateLimited ==> queue == old(queue)[1..]
    {
      PoppedReady(Now());
      var item := queue[0];
      queue := queue[1..];
      match item
      case Quote(s) => PopQuote(s, answer);
      case Realtime(s) => PopRealtime(s, answer);
    }

    // ---- lists of symbols

    method DropRemoved(order: seq<Symbol>)
      modifies this
      ensures Now() == Dropped(old(Now()), order)
    {
      for i := 0 to |order|
        invariant Now() == Dropped(old(Now()), order[..i])
      {
        assert order[..i + 1][..i] == order[..i];
        CancelQuoteSubscription(order[i]);
        states := states - {order[i]};
      }
      assert order[..|order|] == order;
    }

    method CancelRealtimes(order: seq<Symbol>)
      modifies this
      ensures Now() == RealtimesCancelled(old(Now()), order)
    {
      for i := 0 to |order|
        invariant Now() == RealtimesCancelled(old(Now()), order[..i])
      {
        assert order[..i + 1][..i] == order[..i];
        CancelRealtimeSubscription(order[i]);
      }
      assert order[..|order|] == order;
    }

    /** After a refresh has waited: exactly the removed symbols lose what served them, tracked again or not. */
    method DropAfterRefresh(order: seq<Symbol>, rtOrder: seq<Symbol>)
      requires Valid()
      modifies this
      ensures Now() == RemovedDropped(old(Now()), order, rtOrder) && Valid()
      ensures forall x :: IsServed(x) <==> old(IsServed(x)) && x !in order
    {
      RealtimesCancelledSound(Now(), rtOrder);
      DroppedSound(RealtimesCancelled(Now(), rtOrder), order);
      forall x ensures Served(RemovedDropped(Now(), order, rtOrder), x) <==> IsServed(x) && x !in order {
        DroppedServes(Now(), order, rtOrder, x);
      }
      CancelRealtimes(rtOrder);
      DropRemoved(order);
    }

    method MarkQueued(order: seq<Symbol>)
      modifies this
      ensures Now() == Marked(old(Now()), order)
    {
      for i := 0 to |order|
        invariant Now() == Marked(old(Now()), order[..i])
      {
        assert order[..i + 1][..i] == order[..i];
        states := states[order[i] := Queued];
      }
      assert order[..|order|] == order;
    }

    method QueueQuotes(order: seq<Symbol>)
      modifies this
      ensures Now() == QuotesQueued(old(Now()), order)
    {
      for i := 0 to |order|
        invariant Now() == QuotesQueued(old(Now()), order[..i])
      {
        assert order[..i + 1][..i] == order[..i];
        QueueQuote(order[i]);
      }
      assert order[..|order|] == order;
    }

    method QueueRealtimes(order: seq<Symbol>)
      modifies this
      ensures Now() == RealtimesQueued(old(Now()), order)
    {
      for i := 0 to |order|
        invariant Now() == RealtimesQueued(old(Now()), order[..i])
      {
        assert order[..i + 1][..i] == order[..i];
        QueueRealtime(order[i]);
      }
      assert order[..|order|] == order;
    }

    /** End of `refresh_watchlist`'s round: with some shard connected, all added symbols are served. */
    method QueueAfterWatchlistRefresh(order: seq<Symbol>)
      requires Valid()
      modifies this
      ensures Now() == WatchlistAdded(old(Now()), order) && Valid()
      ensures AnyConnected(Now()) ==> forall x :: x in order || old(IsServed(x)) ==> IsServed(x)
    {
      WatchlistAddedMeaning(Now(), order);
      MarkedEffects(Now(), order);
      MarkQueued(order);
      if exists ib :: ib in shards && ib in connected {
        QueueQuotes(order);
      }
    }

    /** End of `refresh_active_symbols`' round: with the primary shard connected, all added symbols are served. */
    method QueueAfterActiveRefresh(order: seq<Symbol>, rtOrder: seq<Symbol>)
      requires Valid()
      modifies this
      ensures Now() == ActiveAdded(old(Now()), order, rtOrder) && Valid()
      ensures IsConnected(Now(), 0) ==> forall x :: x in order || old(IsServed(x)) ==> IsServed(x)
    {
      ActiveAddedMeaning(Now(), order, rtOrder);
      MarkedEffects(Now(), order);
      MarkQueued(order);
      if shards[0] in connected {
        QueueQuotes(order);
        QueueRealtimes(rtOrder);
      }
    }

    method Requeue(order: seq<Symbol>)
      modifies this
      ensures Now() == Requeued(old(Now()), order)
    {
      for i := 0 to |order|
        invariant Now() == Requeued(old(Now()), order[..i])
      {
        assert order[..i + 1][..i] == order[..i];
        CancelQuoteSubscription(order[i]);
        QueueQuote(order[i]);
      }
      assert order[..|order|] == order;
    }

    /** One turn of the tear-down loop of `_adjust_shards`: the symbols of the last shard wait in the queue, nobody
        loses what serves them, and no symbol is left on a shard that is gone. */
    method RemoveLastShard(order: seq<Symbol>)
      requires Valid() && |shards| > 1 && Enumerates(order, OnShard(Now(), |shards| - 1))
      modifies this
      ensures Now() == ShardRemoved(old(Now()), order) && Valid()
      ensures |shards| == |clientIds| == old(|shards|) - 1
      ensures forall s :: s in order ==> s in queuedQuotes && s !in tickers
      ensures forall x :: old(IsServed(x)) ==> IsServed(x)
    {
      ShardRemovedMeaning(Now(), order);
      var ib := shards[|shards| - 1];
      shards := shards[..|shards| - 1];
      clientIds := clientIds[..|clientIds| - 1];
      Requeue(order);
      connected := connected - {ib};
    }

    // ---- the primary shard is back

    /** Everything is forgotten, and the symbols to queue again are taken down: exactly the tracked ones. */
    method ClearAfterReconnect() returns (symbols: seq<Symbol>)
      requires Valid()
      modifies this
      ensures Now() == Cleared(old(Now())) && Valid() && queue == []
      ensures symbols == QuoteSymbols(Now()) && forall s :: s in symbols <==> s in Tracked(Now())
      ensures forall s :: IsServed(s) ==> s in states && states[s] == Failed
    {
      ClearedMeaning(Now());
      tickers, contracts, shardOf, rtBars := {}, {}, map[], {};
      queuedQuotes, queuedRealtime, queue := {}, {}, [];
      symbols := QuoteSymbols(Now());
    }

    /** After the clearing and one more await: all the symbols taken down then are served. */
    method QueueAfterReconnect(symbols: seq<Symbol>)
      requires Valid()
      modifies this
      ensures Now() == Resubscribed(old(Now()), symbols) && Valid()
      ensures forall x :: x in symbols || old(IsServed(x)) ==> IsServed(x)
    {
      ResubscribedMeaning(Now(), symbols);
      QuotesQueuedEffects(Now(), symbols);
      QueueQuotes(symbols);
      QueueRealtimes(active);
    }
  }
}
