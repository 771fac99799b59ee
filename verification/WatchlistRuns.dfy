/** The quote worker as a system of coroutines: every run is a sequence of steps between awaits. The question is
whether a watched symbol can silently end up with no subscription, no queue entry and no error. */
module WatchlistRuns {
  import opened Common
  import opened WatchlistData

  /** Inside `_adjust_shards`. */
  datatype Adjust =
    | Growing(desired: nat)
    | Connecting(desired: nat, index: nat, ib: Ib)
    | Shrinking(desired: nat)

  /** Where a refresh coroutine stands, with its local variables: waiting for its next read, clearing old statuses
      in a thread, or adjusting the shards with the added symbols still to be queued. */
  datatype Refresher =
    | Idle
    | Clearing(added: set<Symbol>, removed: set<Symbol>, rtAdded: set<Symbol>, rtRemoved: set<Symbol>)
    | Adjusting(added: set<Symbol>, rtAdded: set<Symbol>, adjust: Adjust)

  /** Where the reconnect coroutine stands: between visits, connecting a shard, or about to queue everything. */
  datatype Reconnector = Resting | Reconnecting(index: nat, ib: Ib) | Requeueing(symbols: seq<Symbol>)

  datatype System = System(d: Data, watch: Refresher, act: Refresher, recon: Reconnector, crashed: bool)

  datatype Who = Watchlist | ActiveSymbols

  datatype Event =
    | Disconnect(ib: Ib)
    | Connect(ib: Ib)
    | ReadWatchlist(list: seq<Symbol>)
    | ReadActive(list: seq<Symbol>)
    | Drop(who: Who, order: seq<Symbol>, rtOrder: seq<Symbol>)
    | Grow(who: Who, acquired: Option<int>)
    | ShardConnected(who: Who, ok: bool, clientId: int)
    | Shrink(who: Who, order: seq<Symbol>)
    | QueueAdded(who: Who, order: seq<Symbol>, rtOrder: seq<Symbol>)
    | Pop(answer: Answer)
    | VisitShard(index: nat)
    | Reconnected(ok: bool, clientId: int, order: seq<Symbol>)
    | RequeueAll
    | TickLive(symbol: Symbol)
    | TickWithoutPrice(symbol: Symbol)

  function RefresherOf(sys: System, who: Who): Refresher {
    if who == Watchlist then sys.watch else sys.act
  }

  function WithRefresher(sys: System, who: Who, r: Refresher): System {
    if who == Watchlist then sys.(watch := r) else sys.(act := r)
  }

  predicate ConnectsNow(r: Refresher, ib: Ib) {
    r.Adjusting? && r.adjust.Connecting? && r.adjust.ib == ib
  }

  /** A step is possible. A connection can only come up while some coroutine is connecting it; a connect call that
      reports failure leaves it down. */
  predicate Enabled(sys: System, e: Event) {
    !sys.crashed &&
    match e
    case Disconnect(ib) => true
    case Connect(ib) =>
      ConnectsNow(sys.watch, ib) || ConnectsNow(sys.act, ib) || (sys.recon.Reconnecting? && sys.recon.ib == ib)
    case ReadWatchlist(_) => sys.watch.Idle?
    case ReadActive(_) => sys.act.Idle?
    case Drop(who, order, rtOrder) =>
      var r := RefresherOf(sys, who);
      r.Clearing? && Enumerates(order, r.removed) && Enumerates(rtOrder, r.rtRemoved)
    case Grow(who, _) => RefresherOf(sys, who).Adjusting? && RefresherOf(sys, who).adjust.Growing?
    case ShardConnected(who, _, _) => RefresherOf(sys, who).Adjusting? && RefresherOf(sys, who).adjust.Connecting?
    case Shrink(who, order) =>
      var r := RefresherOf(sys, who);
      r.Adjusting? && r.adjust.Shrinking? && |sys.d.shards| > r.adjust.desired && |sys.d.shards| > 1
      && |sys.d.clientIds| > 0 && Enumerates(order, OnShard(sys.d, |sys.d.shards| - 1))
    case QueueAdded(who, order, rtOrder) =>
      var r := RefresherOf(sys, who);
      r.Adjusting? && r.adjust.Shrinking? && !(|sys.d.shards| > r.adjust.desired && |sys.d.shards| > 1)
      && Enumerates(order, r.added) && Enumerates(rtOrder, r.rtAdded)
    case Pop(_) => sys.d.queue != [] && sys.d.shards != [] && AnyConnected(sys.d)
    case VisitShard(i) => sys.recon.Resting? && i < |sys.d.shards| && !IsConnected(sys.d, i)
    case Reconnected(ok, _, order) =>
      sys.recon.Reconnecting? && (ok <==> sys.recon.ib in sys.d.connected)
      && (ok && sys.recon.index > 0 ==> Enumerates(order, OnShard(sys.d, sys.recon.index)))
    case RequeueAll => sys.recon.Requeueing?
    case TickLive(s) => s in sys.d.handlers
    case TickWithoutPrice(s) => s in sys.d.handlers
  }

  function Grown(sys: System, who: Who, acquired: Option<int>): System
    requires RefresherOf(sys, who).Adjusting? && RefresherOf(sys, who).adjust.Growing?
  {
    var r := RefresherOf(sys, who);
    var desired := r.adjust.desired;
    if |sys.d.shards| < desired && acquired.Some? then
      var added := sys.(d := ShardAdded(sys.d, acquired.value));
      WithRefresher(added, who, r.(adjust := Connecting(desired, |sys.d.shards|, sys.d.nextIb)))
    else WithRefresher(sys, who, r.(adjust := Shrinking(desired)))
  }

  /** After the connect call: the shard may have been torn down meanwhile, which ends the growing. */
  function ShardReady(sys: System, who: Who, ok: bool, clientId: int): System
    requires RefresherOf(sys, who).Adjusting? && RefresherOf(sys, who).adjust.Connecting?
  {
    var r := RefresherOf(sys, who);
    var a := r.adjust;
    if !ok then WithRefresher(sys, who, r.(adjust := Growing(a.desired)))
    else if a.index < |sys.d.clientIds| then
      WithRefresher(sys.(d := sys.d.(clientIds := sys.d.clientIds[a.index := clientId])), who,
          r.(adjust := Growing(a.desired)))
    else WithRefresher(sys, who, r.(adjust := Shrinking(a.desired)))
  }

  /** The added symbols are queued if the connection the coroutine asks about is up, else only marked. */
  function AddedQueued(sys: System, who: Who, order: seq<Symbol>, rtOrder: seq<Symbol>): System {
    var d' := if who == Watchlist then WatchlistAdded(sys.d, order) else ActiveAdded(sys.d, order, rtOrder);
    WithRefresher(sys.(d := d'), who, Idle)
  }

  /** A shard is back. Its slot may have been torn down meanwhile: then the coroutine fails and the worker ends. */
  function ShardBack(sys: System, clientId: int, order: seq<Symbol>): System
    requires sys.recon.Reconnecting?
  {
    var i := sys.recon.index;
    if i >= |sys.d.clientIds| then sys.(crashed := true) else
    var d' := sys.d.(clientIds := sys.d.clientIds[i := clientId]);
    if i == 0 then sys.(d := Cleared(d'), recon := Requeueing(QuoteSymbols(d')))
    else sys.(d := Requeued(d', order), recon := Resting)
  }

  function Step(sys: System, e: Event): System
    requires Enabled(sys, e)
  {
    var d := sys.d;
    match e
    case Disconnect(ib) => sys.(d := d.(connected := d.connected - {ib}))
    case Connect(ib) => sys.(d := d.(connected := d.connected + {ib}))
    case ReadWatchlist(list) =>
      if list == d.watchlist then sys else
      var d' := d.(watchlist := list);
      sys.(d := d', watch := Clearing(Tracked(d') - Tracked(d), Tracked(d) - Tracked(d'), {}, {}))
    case ReadActive(list) =>
      if list == d.active then sys else
      var d' := d.(active := list);
      sys.(d := d', act := Clearing(Tracked(d') - Tracked(d), Tracked(d) - Tracked(d'),
                                    SetOf(list) - SetOf(d.active), SetOf(d.active) - SetOf(list)))
    case Drop(who, order, rtOrder) =>
      var r := RefresherOf(sys, who);
      WithRefresher(sys.(d := RemovedDropped(d, order, rtOrder)), who,
                    Adjusting(r.added, r.rtAdded, Growing(DesiredShards(|Tracked(d)|))))
    case Grow(who, acquired) => Grown(sys, who, acquired)
    case ShardConnected(who, ok, clientId) => ShardReady(sys, who, ok, clientId)
    case Shrink(who, order) => sys.(d := ShardRemoved(d, order))
    case QueueAdded(who, order, rtOrder) => AddedQueued(sys, who, order, rtOrder)
    case Pop(answer) => sys.(d := Popped(d, answer))
    case VisitShard(i) => sys.(recon := Reconnecting(i, d.shards[i]))
    case Reconnected(ok, clientId, order) =>
      if ok then ShardBack(sys, clientId, order) else sys.(recon := Resting)
    case RequeueAll => sys.(d := Resubscribed(d, sys.recon.symbols), recon := Resting)
    case TickLive(s) => sys.(d := d.(states := d.states[s := Live]))
    case TickWithoutPrice(s) => if s in d.tickers then sys.(d := d.(states := d.states[s := Waiting])) else sys
  }

  function Run(sys: System, events: seq<Event>): Option<System>
    decreases |events|
  {
    if events == [] then Some(sys)
    else if Enabled(sys, events[0]) then Run(Step(sys, events[0]), events[1..])
    else None
  }

  /** Before the coroutines start; the first connect of the primary shard may have succeeded or not. */
  function Init(clientId: int, primaryUp: bool): System {
    var d := InitialData(clientId);
    System(if primaryUp then d.(connected := {0}) else d, Idle, Idle, Resting, false)
  }

  // ---------------------------------------------------------------- structure

  /** A refresher only ever connects a shard of its own making, never the primary. */
  predicate SoundRefresher(r: Refresher, d: Data) {
    r.Adjusting? ==>
      && 1 <= r.adjust.desired <= MAX_SHARDS
      && (r.adjust.Connecting? ==> 0 < r.adjust.ib < d.nextIb)
  }

  ghost predicate Sound(sys: System) {
    && SoundData(sys.d)
    && SoundRefresher(sys.watch, sys.d) && SoundRefresher(sys.act, sys.d)
    && (sys.recon.Reconnecting? ==> (sys.recon.ib == 0 <==> sys.recon.index == 0) && sys.recon.ib < sys.d.nextIb)
  }

  lemma AddedQueuedEffects(d: Data, order: seq<Symbol>, rtOrder: seq<Symbol>)
    ensures var marked := Marked(d, order);
            var queued := QuotesQueued(marked, order);
            && marked.nextIb == queued.nextIb == RealtimesQueued(queued, rtOrder).nextIb == d.nextIb
  {
    MarkedEffects(d, order);
    QuotesQueuedEffects(Marked(d, order), order);
    RealtimesQueuedEffects(QuotesQueued(Marked(d, order), order), rtOrder);
  }

  lemma StepKeepsSoundData(sys: System, e: Event)
    requires Sound(sys) && Enabled(sys, e)
    ensures SoundData(Step(sys, e).d)
  {
    var d := sys.d;
    match e
    case Disconnect(ib) => ConnectionsSound(d, d.connected - {ib}, d.watchlist, d.active, d.states);
    case Connect(ib) => ConnectionsSound(d, d.connected + {ib}, d.watchlist, d.active, d.states);
    case ReadWatchlist(list) => ConnectionsSound(d, d.connected, list, d.active, d.states);
    case ReadActive(list) => ConnectionsSound(d, d.connected, d.watchlist, list, d.states);
    case Drop(who, order, rtOrder) =>
      RealtimesCancelledSound(d, rtOrder);
      DroppedSound(RealtimesCancelled(d, rtOrder), order);
    case Grow(who, acquired) =>
      if |d.shards| < MAX_SHARDS && acquired.Some? { ShardAddedSound(d, acquired.value); }
    case ShardConnected(who, ok, clientId) =>
      var a := RefresherOf(sys, who).adjust;
      if a.index < |d.clientIds| { ClientIdSound(d, a.index, clientId); }
    case Shrink(who, order) => ShardRemovedSound(d, order);
    case QueueAdded(who, order, rtOrder) => AddedQueuedSound(d, order, rtOrder);
    case Pop(answer) => PoppedSound(d, answer);
    case VisitShard(_) =>
    case Reconnected(ok, clientId, order) =>
      if sys.recon.index < |d.clientIds| {
        ClientIdSound(d, sys.recon.index, clientId);
        var d' := d.(clientIds := d.clientIds[sys.recon.index := clientId]);
        RequeuedSound(d', order);
        ClearedSound(d');
      }
    case RequeueAll =>
      QuotesQueuedSound(d, sys.recon.symbols);
      RealtimesQueuedSound(QuotesQueued(d, sys.recon.symbols), d.active);
    case TickLive(s) => ConnectionsSound(d, d.connected, d.watchlist, d.active, d.states[s := Live]);
    case TickWithoutPrice(s) => ConnectionsSound(d, d.connected, d.watchlist, d.active, d.states[s := Waiting]);
  }

  lemma StepKeepsIds(sys: System, e: Event)
    requires Sound(sys) && Enabled(sys, e)
    ensures sys.d.nextIb <= Step(sys, e).d.nextIb
  {
    var d := sys.d;
    match e
    case Drop(who, order, rtOrder) =>
      RealtimesCancelledEffects(d, rtOrder);
      DroppedEffects(RealtimesCancelled(d, rtOrder), order);
    case Shrink(who, order) =>
      RequeuedEffects(d.(shards := d.shards[..|d.shards| - 1], clientIds := d.clientIds[..|d.clientIds| - 1]), order);
    case QueueAdded(who, order, rtOrder) => AddedQueuedEffects(d, order, rtOrder);
    case Reconnected(ok, clientId, order) =>
      if sys.recon.index < |d.clientIds| {
        RequeuedEffects(d.(clientIds := d.clientIds[sys.recon.index := clientId]), order);
      }
    case RequeueAll =>
      QuotesQueuedEffects(d, sys.recon.symbols);
      RealtimesQueuedEffects(QuotesQueued(d, sys.recon.symbols), d.active);
    case _ =>
  }

  /** Every step keeps the structural invariants. */
  lemma StepKeepsSound(sys: System, e: Event)
    requires Sound(sys) && Enabled(sys, e)
    ensures Sound(Step(sys, e))
  {
    StepKeepsSoundData(sys, e);
    StepKeepsIds(sys, e);
    DesiredInRange(|Tracked(sys.d)|);
  }

  /** What an adjusting refresher does next: it asks for a shard as long as there are too few and ids are left, then
      tears down one as long as there are too many, and only then queues the added symbols. */
  lemma AdjustGoesOn(sys: System, who: Who, acquired: Option<int>, order: seq<Symbol>, rtOrder: seq<Symbol>)
    requires Sound(sys) && !sys.crashed && RefresherOf(sys, who).Adjusting?
    ensures var r, n := RefresherOf(sys, who), |sys.d.shards|;
            && (r.adjust.Growing? ==>
                  && Enabled(sys, Grow(who, acquired))
                  && var next := Step(sys, Grow(who, acquired));
                     var r' := RefresherOf(next, who);
                     if n < r.adjust.desired && acquired.Some?
                     then |next.d.shards| == n + 1 && next.d.clientIds == sys.d.clientIds + [acquired.value]
                          && next.d.shards[n] == sys.d.nextIb < next.d.nextIb
                          && r' == Adjusting(r.added, r.rtAdded, Connecting(r.adjust.desired, n, sys.d.nextIb))
                     else next.d == sys.d && r' == Adjusting(r.added, r.rtAdded, Shrinking(r.adjust.desired)))
            && (r.adjust.Shrinking? ==>
                  && (Enabled(sys, Shrink(who, order)) <==>
                        n > r.adjust.desired && Enumerates(order, OnShard(sys.d, n - 1)))
                  && (Enabled(sys, QueueAdded(who, order, rtOrder)) <==>
                        n <= r.adjust.desired && Enumerates(order, r.added) && Enumerates(rtOrder, r.rtAdded)))
            && (!r.adjust.Shrinking? ==>
                  !Enabled(sys, Shrink(who, order)) && !Enabled(sys, QueueAdded(who, order, rtOrder)))
  {
  }

  /** The loops wait: nothing is subscribed while every connection is down, only a connection that is down is visited,
      only one that is being made comes up, and a worker that has ended does nothing. */
  lemma LoopsWait(sys: System, answer: Answer, i: nat, ib: Ib, e: Event)
    ensures Enabled(sys, Pop(answer)) ==> exists j :: 0 <= j < |sys.d.shards| && IsConnected(sys.d, j)
    ensures Enabled(sys, VisitShard(i)) ==> i < |sys.d.shards| && sys.d.shards[i] !in sys.d.connected
    ensures Enabled(sys, Connect(ib)) ==>
              || (sys.watch.Adjusting? && sys.watch.adjust.Connecting? && sys.watch.adjust.ib == ib)
              || (sys.act.Adjusting? && sys.act.adjust.Connecting? && sys.act.adjust.ib == ib)
              || (sys.recon.Reconnecting? && sys.recon.ib == ib)
    ensures sys.crashed ==> !Enabled(sys, e)
  {
    if Enabled(sys, Pop(answer)) {
      var up :| up in sys.d.shards && up in sys.d.connected;
      var j :| 0 <= j < |sys.d.shards| && sys.d.shards[j] == up;
      assert IsConnected(sys.d, j);
    }
  }

  /** After its connect call: a shard that is up gets its client id, unless its slot is gone, which ends the growing; a
      shard that is down stays for the reconnect loop. */
  lemma ConnectOutcome(sys: System, who: Who, ok: bool, clientId: int)
    requires Sound(sys) && Enabled(sys, ShardConnected(who, ok, clientId))
    ensures var r, next := RefresherOf(sys, who), Step(sys, ShardConnected(who, ok, clientId));
            var r', i, there := RefresherOf(next, who), r.adjust.index, r.adjust.index < |sys.d.shards|;
            && next.d == (if ok && there then sys.d.(clientIds := sys.d.clientIds[i := clientId]) else sys.d)
            && r' == Adjusting(r.added, r.rtAdded,
                               if ok && !there then Shrinking(r.adjust.desired) else Growing(r.adjust.desired))
  {
  }

  /** A read of the same list changes nothing; one of another list is taken over, with what it adds and removes. */
  lemma ReadsNotice(sys: System, list: seq<Symbol>)
    requires !sys.crashed && sys.watch.Idle? && sys.act.Idle?
    ensures var d, w, a := sys.d, Step(sys, ReadWatchlist(list)), Step(sys, ReadActive(list));
            && (list == d.watchlist ==> w == sys) && (list == d.active ==> a == sys)
            && (list != d.watchlist ==>
                  && w.d == d.(watchlist := list) && w.act == sys.act && w.watch.Clearing?
                  && (forall s :: s in w.watch.added <==> s in list && s !in d.watchlist && s !in d.active)
                  && (forall s :: s in w.watch.removed <==> s in d.watchlist && s !in list && s !in d.active)
                  && w.watch.rtAdded == w.watch.rtRemoved == {})
            && (list != d.active ==>
                  && a.d == d.(active := list) && a.watch == sys.watch && a.act.Clearing?
                  && (forall s :: s in a.act.added <==> s in list && s !in d.active && s !in d.watchlist)
                  && (forall s :: s in a.act.removed <==> s in d.active && s !in list && s !in d.watchlist)
                  && (forall s :: s in a.act.rtAdded <==> s in list && s !in d.active)
                  && (forall s :: s in a.act.rtRemoved <==> s in d.active && s !in list))
  {
  }

  /** The connection the refresher asks about: any for the watchlist, the primary for the active symbols. */
  predicate CanQueue(d: Data, who: Who) {
    if who == Watchlist then AnyConnected(d) else IsConnected(d, 0)
  }

  /** The end of a round: every added symbol is reported as queued; if the connection is up it is subscribed or in the
      queue, and a realtime symbol likewise; if not, the queue stays as it was. */
  lemma QueueAddedOutcome(sys: System, who: Who, order: seq<Symbol>, rtOrder: seq<Symbol>, s: Symbol)
    requires Sound(sys) && Enabled(sys, QueueAdded(who, order, rtOrder))
    ensures var d, d' := sys.d, Step(sys, QueueAdded(who, order, rtOrder)).d;
            && RefresherOf(Step(sys, QueueAdded(who, order, rtOrder)), who) == Idle
            && (s in order ==> s in d'.states && d'.states[s] == Queued)
            && (s in order && CanQueue(d, who) ==> s in d'.tickers || (s in d'.queuedQuotes && Quote(s) in d'.queue))
            && (s in rtOrder && CanQueue(d, who) && who == ActiveSymbols ==>
                  s in d'.rtBars || (s in d'.queuedRealtime && Realtime(s) in d'.queue))
            && (!CanQueue(d, who) ==> d'.queue == d.queue)
  {
    MarkedIsQueued(sys.d, order, s);
    StepKeepsSoundData(sys, QueueAdded(who, order, rtOrder));
    MarkedEffects(sys.d, order);
    var marked := Marked(sys.d, order);
    QuotesQueuedEffects(marked, order);
    RealtimesQueuedEffects(QuotesQueued(marked, order), rtOrder);
    RealtimesAreQueued(QuotesQueued(marked, order), rtOrder, s);
    assert s in order ==> s in SetOf(order) && s in marked.tickers + marked.queuedQuotes + SetOf(order);
  }

  /** A tick reports its symbol as live, or, without a price and only while it is subscribed, as waiting; a failed
      reconnect ends the visit. Nothing else changes. */
  lemma TicksReport(sys: System, s: Symbol, clientId: int, order: seq<Symbol>)
    requires !sys.crashed
    ensures s in sys.d.handlers ==>
              && Step(sys, TickLive(s)) == sys.(d := sys.d.(states := sys.d.states[s := Live]))
              && Step(sys, TickWithoutPrice(s))
                 == if s in sys.d.tickers then sys.(d := sys.d.(states := sys.d.states[s := Waiting])) else sys
    ensures Enabled(sys, Reconnected(false, clientId, order)) ==>
              Step(sys, Reconnected(false, clientId, order)) == sys.(recon := Resting)
  {
  }

  // ---------------------------------------------------------------- no symbol silently lost

  function AddedOf(r: Refresher): set<Symbol> { if r.Idle? then {} else r.added }

  /** Symbols some coroutine holds in a local variable and will queue. */
  function Pending(sys: System): set<Symbol> {
    AddedOf(sys.watch) + AddedOf(sys.act) + if sys.recon.Requeueing? then SetOf(sys.recon.symbols) else {}
  }

  /** The primary shard is connected, and not just coming back. */
  predicate InSync(sys: System) {
    0 in sys.d.connected && !(sys.recon.Reconnecting? && sys.recon.index == 0)
  }

  /** The worker is alive, and while it is in sync every tracked symbol is served or about to be queued. */
  ghost predicate NoneLost(sys: System) {
    !sys.crashed && (InSync(sys) ==> forall s :: s in Tracked(sys.d) ==> Served(sys.d, s) || s in Pending(sys))
  }

  /** The step that ends the worker, and with it loses every symbol: a connection of a shard comes back after the
      shard's slot was torn down. */
  predicate Crashes(sys: System, e: Event) {
    e.Reconnected? && e.ok && sys.recon.Reconnecting? && sys.recon.index >= |sys.d.shards|
  }

  /** The three steps that lose a symbol: a refresher drops, as removed, a symbol that is tracked again by now and
      that nobody is about to queue; a late tick reports a failed symbol as live; the worker ends. */
  predicate Loses(sys: System, e: Event) {
    Crashes(sys, e) ||
    (InSync(sys) &&
     match e
     case Drop(_, order, _) => exists s :: s in order && s in Tracked(sys.d) && s !in Pending(sys)
     case TickLive(s) => s in Tracked(sys.d) && s !in sys.d.tickers && s !in sys.d.queuedQuotes && s !in Pending(sys)
     case _ => false)
  }

  lemma AddedQueuedServes(sys: System, who: Who, order: seq<Symbol>, rtOrder: seq<Symbol>, s: Symbol)
    requires Sound(sys) && 0 in sys.d.connected && (s in order || Served(sys.d, s))
    ensures Served(AddedQueued(sys, who, order, rtOrder).d, s)
  {
    var d := sys.d;
    assert AnyConnected(d) by { assert d.shards[0] in d.shards; }
    AddedServes(d, order, rtOrder, s);
  }

  lemma AddedQueuedKeeps(sys: System, who: Who, order: seq<Symbol>, rtOrder: seq<Symbol>)
    ensures var d' := AddedQueued(sys, who, order, rtOrder).d;
            d'.watchlist == sys.d.watchlist && d'.active == sys.d.active && d'.connected == sys.d.connected
  {
    MarkedEffects(sys.d, order);
    QuotesQueuedEffects(Marked(sys.d, order), order);
    RealtimesQueuedEffects(QuotesQueued(Marked(sys.d, order), order), rtOrder);
  }

  lemma LostAmongDropped(sys: System, next: System, order: seq<Symbol>)
    requires NoneLost(sys) && !next.crashed && InSync(next) == InSync(sys)
    requires Tracked(next.d) == Tracked(sys.d) && Pending(next) == Pending(sys)
    requires forall s :: Served(next.d, s) <==> Served(sys.d, s) && s !in order
    ensures NoneLost(next)
            <==> !(InSync(sys) && exists s :: s in order && s in Tracked(sys.d) && s !in Pending(sys))
  {
  }

  lemma DropCase(sys: System, who: Who, order: seq<Symbol>, rtOrder: seq<Symbol>)
    requires Sound(sys) && NoneLost(sys) && Enabled(sys, Drop(who, order, rtOrder))
    ensures NoneLost(Step(sys, Drop(who, order, rtOrder))) <==> !Loses(sys, Drop(who, order, rtOrder))
  {
    var next := Step(sys, Drop(who, order, rtOrder));
    RealtimesCancelledEffects(sys.d, rtOrder);
    DroppedEffects(RealtimesCancelled(sys.d, rtOrder), order);
    forall s ensures Served(next.d, s) <==> Served(sys.d, s) && s !in order { DroppedServes(sys.d, order, rtOrder, s); }
    LostAmongDropped(sys, next, order);
  }

  lemma ShrinkCase(sys: System, who: Who, order: seq<Symbol>)
    requires Sound(sys) && NoneLost(sys) && Enabled(sys, Shrink(who, order))
    ensures NoneLost(Step(sys, Shrink(who, order)))
  {
    var n := |sys.d.shards| - 1;
    var smaller := sys.d.(shards := sys.d.shards[..n], clientIds := sys.d.clientIds[..n]);
    RequeuedEffects(smaller, order);
    forall s | Served(sys.d, s) ensures Served(ShardRemoved(sys.d, order), s) { RequeuedServes(smaller, order, s); }
  }

  lemma QueueAddedCase(sys: System, who: Who, order: seq<Symbol>, rtOrder: seq<Symbol>)
    requires Sound(sys) && NoneLost(sys) && Enabled(sys, QueueAdded(who, order, rtOrder))
    ensures NoneLost(Step(sys, QueueAdded(who, order, rtOrder)))
  {
    var next := Step(sys, QueueAdded(who, order, rtOrder));
    AddedQueuedKeeps(sys, who, order, rtOrder);
    if InSync(next) {
      forall s | s in Tracked(next.d) ensures Served(next.d, s) || s in Pending(next) {
        assert Served(sys.d, s) || s in Pending(sys);
        if Served(sys.d, s) || s in order {
          AddedQueuedServes(sys, who, order, rtOrder, s);
        } else {
          assert s !in AddedOf(RefresherOf(sys, who));
        }
      }
    }
  }

  lemma PopCase(sys: System, answer: Answer)
    requires Sound(sys) && NoneLost(sys) && Enabled(sys, Pop(answer))
    ensures NoneLost(Step(sys, Pop(answer)))
  {
    PoppedKeeps(sys.d, answer);
    forall s | s in Tracked(sys.d) && Served(sys.d, s) ensures Served(Popped(sys.d, answer), s) {
      PoppedServes(sys.d, answer, s);
    }
  }

  /** Exactly one kind of step ends the worker. */
  lemma StepCrashesExactly(sys: System, e: Event)
    requires Sound(sys) && Enabled(sys, e)
    ensures Step(sys, e).crashed <==> e.Reconnected? && e.ok && sys.recon.index >= |sys.d.shards|
  {
  }

  lemma ReconnectedCase(sys: System, ok: bool, clientId: int, order: seq<Symbol>)
    requires Sound(sys) && NoneLost(sys) && Enabled(sys, Reconnected(ok, clientId, order))
    ensures NoneLost(Step(sys, Reconnected(ok, clientId, order))) <==> !Loses(sys, Reconnected(ok, clientId, order))
  {
    StepCrashesExactly(sys, Reconnected(ok, clientId, order));
    var i := sys.recon.index;
    if ok && i < |sys.d.clientIds| {
      var d' := sys.d.(clientIds := sys.d.clientIds[i := clientId]);
      if i == 0 {
        forall s | s in Tracked(d') ensures s in QuoteSymbols(d') { DedupeKeeps(d'.watchlist + d'.active, s); }
      } else {
        RequeuedEffects(d', order);
        forall s | Served(sys.d, s) ensures Served(Requeued(d', order), s) { RequeuedServes(d', order, s); }
      }
    }
  }

  lemma RequeueAllCase(sys: System)
    requires Sound(sys) && NoneLost(sys) && Enabled(sys, RequeueAll)
    ensures NoneLost(Step(sys, RequeueAll))
  {
    var list := sys.recon.symbols;
    var next := Step(sys, RequeueAll);
    QuotesQueuedEffects(sys.d, list);
    RealtimesQueuedEffects(QuotesQueued(sys.d, list), sys.d.active);
    forall s | Served(sys.d, s) || s in list ensures Served(next.d, s) { QueuedServes(sys.d, list, s); }
  }

  /** The exact condition, step by step: from a state in which no tracked symbol is lost, a step loses one if and
      only if it is one of the three losing steps. */
  lemma StepLosesExactly(sys: System, e: Event)
    requires Sound(sys) && NoneLost(sys) && Enabled(sys, e)
    ensures NoneLost(Step(sys, e)) <==> !Loses(sys, e)
  {
    match e
    case Drop(who, order, rtOrder) => DropCase(sys, who, order, rtOrder);
    case Shrink(who, order) => ShrinkCase(sys, who, order);
    case QueueAdded(who, order, rtOrder) => QueueAddedCase(sys, who, order, rtOrder);
    case Pop(answer) => PopCase(sys, answer);
    case Reconnected(ok, clientId, order) => ReconnectedCase(sys, ok, clientId, order);
    case RequeueAll => RequeueAllCase(sys);
    case TickLive(s) => TickCase(sys, s);
    case ReadWatchlist(_) => ReadCase(sys, e);
    case ReadActive(_) => ReadCase(sys, e);
    case Grow(_, _) => GrowCase(sys, e);
    case ShardConnected(_, _, _) => GrowCase(sys, e);
    case _ => ConnectionCase(sys, e);
  }

  lemma TickCase(sys: System, s: Symbol)
    requires NoneLost(sys) && Enabled(sys, TickLive(s))
    ensures NoneLost(Step(sys, TickLive(s))) <==> !Loses(sys, TickLive(s))
  {
    var next := Step(sys, TickLive(s));
    assert Tracked(next.d) == Tracked(sys.d) && Pending(next) == Pending(sys) && InSync(next) == InSync(sys);
    assert Served(next.d, s) <==> s in sys.d.tickers || s in sys.d.queuedQuotes;
    forall x | x != s ensures Served(next.d, x) <==> Served(sys.d, x) {}
  }

  lemma ReadCase(sys: System, e: Event)
    requires NoneLost(sys) && Enabled(sys, e) && (e.ReadWatchlist? || e.ReadActive?)
    ensures NoneLost(Step(sys, e))
  {
    var next := Step(sys, e);
    forall s ensures Served(next.d, s) <==> Served(sys.d, s) {}
    forall s | s in Tracked(next.d) && s !in Tracked(sys.d) ensures s in Pending(next) {}
  }

  lemma ConnectionCase(sys: System, e: Event)
    requires Sound(sys) && NoneLost(sys) && Enabled(sys, e)
    requires e.Disconnect? || e.Connect? || e.VisitShard? || e.TickWithoutPrice?
    ensures NoneLost(Step(sys, e))
  {
    var next := Step(sys, e);
    assert Tracked(next.d) == Tracked(sys.d) && Pending(next) == Pending(sys);
    forall s | Served(sys.d, s) ensures Served(next.d, s) {}
    assert InSync(next) ==> InSync(sys);
  }

  lemma GrowCase(sys: System, e: Event)
    requires NoneLost(sys) && Enabled(sys, e) && (e.Grow? || e.ShardConnected?)
    ensures NoneLost(Step(sys, e))
  {
    var next := Step(sys, e);
    assert Tracked(next.d) == Tracked(sys.d) && Pending(next) == Pending(sys) && InSync(next) == InSync(sys);
    forall s ensures Served(next.d, s) <==> Served(sys.d, s) {}
  }

  // ---------------------------------------------------------------- whole runs

  /** No step of the run is a losing one. */
  predicate NeverLoses(sys: System, events: seq<Event>)
    decreases |events|
  {
    events != [] && Enabled(sys, events[0]) ==> !Loses(sys, events[0]) && NeverLoses(Step(sys, events[0]), events[1..])
  }

  /** In no state of the run is a symbol lost. */
  ghost predicate NeverLost(sys: System, events: seq<Event>)
    decreases |events|
  {
    NoneLost(sys) && (events != [] && Enabled(sys, events[0]) ==> NeverLost(Step(sys, events[0]), events[1..]))
  }

  /** For every run from a sound state without lost symbols: no state of the run has a lost symbol if and only if
      no step of it is a losing one. Structure holds in any case. */
  lemma {:induction false} RunsLoseExactly(sys: System, events: seq<Event>)
    requires Sound(sys) && NoneLost(sys)
    ensures NeverLost(sys, events) <==> NeverLoses(sys, events)
    decreases |events|
  {
    if events != [] && Enabled(sys, events[0]) {
      StepKeepsSound(sys, events[0]);
      StepLosesExactly(sys, events[0]);
      if NoneLost(Step(sys, events[0])) { RunsLoseExactly(Step(sys, events[0]), events[1..]); }
    }
  }

  lemma {:induction false} RunKeepsSound(sys: System, events: seq<Event>)
    requires Sound(sys) && Run(sys, events).Some?
    ensures Sound(Run(sys, events).value)
    decreases |events|
  {
    if events != [] {
      StepKeepsSound(sys, events[0]);
      RunKeepsSound(Step(sys, events[0]), events[1..]);
    }
  }

  lemma {:induction false} LastStateOfRun(sys: System, events: seq<Event>)
    requires NeverLost(sys, events) && Run(sys, events).Some?
    ensures NoneLost(Run(sys, events).value)
    decreases |events|
  {
    if events != [] { LastStateOfRun(Step(sys, events[0]), events[1..]); }
  }

  /** Every reachable state has the structural invariants; and if no losing step led to it, then, whenever the
      primary shard is in sync and the coroutines are between rounds, each tracked symbol is subscribed, waiting
      in the queue, or reported as failed. */
  lemma ReachableStates(clientId: int, primaryUp: bool, events: seq<Event>)
    requires Run(Init(clientId, primaryUp), events).Some?
    ensures Sound(Run(Init(clientId, primaryUp), events).value)
    ensures var sys := Run(Init(clientId, primaryUp), events).value;
            NeverLoses(Init(clientId, primaryUp), events) && InSync(sys)
            && sys.watch.Idle? && sys.act.Idle? && sys.recon.Resting? ==>
              forall s :: s in Tracked(sys.d) ==>
                s in sys.d.tickers || Quote(s) in sys.d.queue || (s in sys.d.states && sys.d.states[s] == Failed)
  {
    var start := Init(clientId, primaryUp);
    RunKeepsSound(start, events);
    RunsLoseExactly(start, events);
    if NeverLoses(start, events) { LastStateOfRun(start, events); }
  }

  /** Whatever has happened since the primary shard came back, the step that queues serves every symbol that was
      waiting for it. */
  lemma RequeueServes(sys: System, s: Symbol)
    requires Enabled(sys, RequeueAll) && (s in sys.recon.symbols || Served(sys.d, s))
    ensures Served(Step(sys, RequeueAll).d, s)
  {
    ResubscribedServes(sys.d, sys.recon.symbols, s);
  }

  /** Coming back of the primary shard heals: whatever was lost before, afterwards every tracked symbol is about to
      be queued, and then served. */
  lemma ReconnectHeals(sys: System, clientId: int, order: seq<Symbol>)
    requires Sound(sys) && Enabled(sys, Reconnected(true, clientId, order)) && sys.recon.index == 0
    ensures var next := Step(sys, Reconnected(true, clientId, order));
            && NoneLost(next) && Pending(next) >= Tracked(sys.d) && Enabled(next, RequeueAll)
            && forall s :: s in Tracked(sys.d) ==> Served(Step(next, RequeueAll).d, s)
  {
    var next := Step(sys, Reconnected(true, clientId, order));
    var d' := sys.d.(clientIds := sys.d.clientIds[0 := clientId]);
    forall s | s in Tracked(sys.d) ensures s in QuoteSymbols(d') { DedupeKeeps(d'.watchlist + d'.active, s); }
    forall s | s in Tracked(sys.d) ensures Served(Step(next, RequeueAll).d, s) { RequeueServes(next, s); }
  }

  // ---------------------------------------------------------------- a secondary connection comes back

  /** When a secondary shard is back, every symbol on it has lost its dead subscription and waits in the queue; the
      others keep their subscription and their shard, the queue keeps its entries, and the new client id is stored. */
  lemma SecondaryRequeues(sys: System, clientId: int, order: seq<Symbol>)
    requires Sound(sys) && Enabled(sys, Reconnected(true, clientId, order)) && 0 < sys.recon.index < |sys.d.shards|
    ensures var d, next := sys.d, Step(sys, Reconnected(true, clientId, order));
            && (forall s :: s in d.shardOf && d.shardOf[s] == sys.recon.index ==>
                  s !in next.d.tickers && s in next.d.queuedQuotes && Quote(s) in next.d.queue)
            && (forall s :: !(s in d.shardOf && d.shardOf[s] == sys.recon.index) ==>
                  && (s in next.d.tickers <==> s in d.tickers) && (s in next.d.queuedQuotes <==> s in d.queuedQuotes)
                  && (s in next.d.shardOf <==> s in d.shardOf)
                  && (s in d.shardOf ==> next.d.shardOf[s] == d.shardOf[s]))
            && d.queue <= next.d.queue && next.d.clientIds == d.clientIds[sys.recon.index := clientId]
            && next.d.rtBars == d.rtBars && next.d.states == d.states && next.d.watchlist == d.watchlist
            && next.d.active == d.active && next.d.shards == d.shards && next.d.connected == d.connected
            && next == sys.(d := next.d, recon := Resting)
  {
    var i := sys.recon.index;
    var d' := sys.d.(clientIds := sys.d.clientIds[i := clientId]);
    ClientIdSound(sys.d, i, clientId);
    RequeuedSound(d', order);
    RequeuedEffects(d', order);
    forall s ensures s in OnShard(sys.d, i) <==> s in order { assert s in SetOf(order) <==> s in order; }
    forall s | s in order ensures s in Requeued(d', order).queuedQuotes && s !in Requeued(d', order).tickers {
      RequeuedIsQueued(d', order, s);
    }
    RequeuedLeavesOthers(d', order);
  }

  // ---------------------------------------------------------------- no subscription on a dead connection

  /** Symbols whose subscription was made on a connection that has dropped since, after one more step. */
  function StaleAfter(sys: System, stale: set<Symbol>, e: Event): set<Symbol>
    requires Enabled(sys, e)
  {
    (stale + if e.Disconnect? then OnConnection(sys.d, e.ib) else {}) * Step(sys, e).d.tickers
  }

  function OnConnection(d: Data, ib: Ib): set<Symbol> {
    set s | s in d.shardOf && d.shardOf[s] < |d.shards| && d.shards[d.shardOf[s]] == ib
  }

  /** A dead subscription is only on a connection that is down, or that is just coming back. */
  ghost predicate Fresh(sys: System, stale: set<Symbol>) {
    && stale <= sys.d.tickers
    && (sys.recon.Reconnecting? && sys.recon.ib in sys.d.shards ==>
          sys.recon.index < |sys.d.shards| && sys.d.shards[sys.recon.index] == sys.recon.ib)
    && forall s, ib :: s in stale && s in OnConnection(sys.d, ib) && ib in sys.d.connected ==>
         sys.recon.Reconnecting? && sys.recon.ib == ib
  }

  /** The step that breaks this: a refresher, still connecting a shard of its own, brings up a connection that was up
      and in use and dropped meanwhile, and that the reconnect loop is not visiting. */
  predicate Revives(sys: System, stale: set<Symbol>, e: Event) {
    e.Connect? && !(sys.recon.Reconnecting? && sys.recon.ib == e.ib) && stale * OnConnection(sys.d, e.ib) != {}
  }

  /** A symbol that is subscribed in both states is on the same shard, and the shard on the same connection. */
  predicate SamePlaces(d: Data, d': Data) {
    forall s :: s in d.shardOf && s in d'.shardOf && s in d.tickers ==>
      && d'.shardOf[s] == d.shardOf[s] < |d.shards| && d.shardOf[s] < |d'.shards|
      && d'.shards[d.shardOf[s]] == d.shards[d.shardOf[s]]
  }

  lemma ShrinkKeepsPlaces(d: Data, order: seq<Symbol>)
    requires SoundData(d) && |d.shards| > 1 && Enumerates(order, OnShard(d, |d.shards| - 1))
    ensures SamePlaces(d, ShardRemoved(d, order))
  {
    var n := |d.shards| - 1;
    RequeuedEffects(d.(shards := d.shards[..n], clientIds := d.clientIds[..n]), order);
    ShardRemovedSound(d, order);
  }

  lemma QueueingKeepsPlaces(d: Data, order: seq<Symbol>, rtOrder: seq<Symbol>)
    requires SoundData(d)
    ensures SamePlaces(d, WatchlistAdded(d, order)) && SamePlaces(d, ActiveAdded(d, order, rtOrder))
    ensures SamePlaces(d, RealtimesQueued(QuotesQueued(d, order), rtOrder))
  {
    MarkedEffects(d, order);
    QuotesQueuedEffects(Marked(d, order), order);
    RealtimesQueuedEffects(QuotesQueued(Marked(d, order), order), rtOrder);
    QuotesQueuedEffects(d, order);
    RealtimesQueuedEffects(QuotesQueued(d, order), rtOrder);
  }

  /** Nobody's shard or connection changes under a subscription. */
  lemma StepKeepsPlaces(sys: System, e: Event)
    requires Sound(sys) && Enabled(sys, e)
    ensures SamePlaces(sys.d, Step(sys, e).d)
  {
    var d := sys.d;
    match e
    case Drop(who, order, rtOrder) =>
      RealtimesCancelledEffects(d, rtOrder);
      RealtimesCancelledPlaces(d, rtOrder);
      DroppedEffects(RealtimesCancelled(d, rtOrder), order);
      DroppedPlaces(RealtimesCancelled(d, rtOrder), order);
    case Shrink(who, order) => ShrinkKeepsPlaces(d, order);
    case QueueAdded(who, order, rtOrder) => QueueingKeepsPlaces(d, order, rtOrder);
    case Reconnected(ok, clientId, order) =>
      if sys.recon.index < |d.clientIds| {
        RequeuedEffects(d.(clientIds := d.clientIds[sys.recon.index := clientId]), order);
      }
    case RequeueAll => QueueingKeepsPlaces(d, sys.recon.symbols, d.active);
    case _ =>
  }

  /** A step that brings no connection up and leaves the reconnect loop alone. */
  lemma FreshKept(sys: System, stale: set<Symbol>, e: Event)
    requires Sound(sys) && Fresh(sys, stale) && Enabled(sys, e) && !e.Connect? && !e.VisitShard? && !e.Reconnected?
    requires Step(sys, e).recon == sys.recon && Step(sys, e).d.connected <= sys.d.connected
    requires sys.recon.Reconnecting? && sys.recon.ib in Step(sys, e).d.shards ==>
               sys.recon.index < |Step(sys, e).d.shards| && Step(sys, e).d.shards[sys.recon.index] == sys.recon.ib
    ensures Fresh(Step(sys, e), StaleAfter(sys, stale, e))
  {
    var next, stale' := Step(sys, e), StaleAfter(sys, stale, e);
    StepKeepsPlaces(sys, e);
    forall s, ib | s in stale' && s in OnConnection(next.d, ib) && ib in next.d.connected
      ensures sys.recon.Reconnecting? && sys.recon.ib == ib
    {
      assert s in OnConnection(sys.d, ib);
      assert s in stale;
    }
  }

  lemma ConnectFresh(sys: System, stale: set<Symbol>, ib: Ib)
    requires Sound(sys) && Fresh(sys, stale) && Enabled(sys, Connect(ib))
    ensures Fresh(Step(sys, Connect(ib)), StaleAfter(sys, stale, Connect(ib))) <==> !Revives(sys, stale, Connect(ib))
  {
    var next := Step(sys, Connect(ib));
    assert StaleAfter(sys, stale, Connect(ib)) == stale;
    assert forall s, x :: s in OnConnection(next.d, x) <==> s in OnConnection(sys.d, x);
    if Revives(sys, stale, Connect(ib)) {
      var s :| s in stale * OnConnection(sys.d, ib);
      assert s in OnConnection(next.d, ib) && ib in next.d.connected;
    }
  }

  lemma VisitFresh(sys: System, stale: set<Symbol>, i: nat)
    requires Sound(sys) && Fresh(sys, stale) && Enabled(sys, VisitShard(i))
    ensures Fresh(Step(sys, VisitShard(i)), StaleAfter(sys, stale, VisitShard(i)))
  {
    var next := Step(sys, VisitShard(i));
    assert StaleAfter(sys, stale, VisitShard(i)) == stale;
    forall s, ib | s in stale && s in OnConnection(next.d, ib) ensures ib !in next.d.connected {
      assert s in OnConnection(sys.d, ib);
    }
  }

  lemma ReconnectedFresh(sys: System, stale: set<Symbol>, ok: bool, clientId: int, order: seq<Symbol>)
    requires Sound(sys) && Fresh(sys, stale) && Enabled(sys, Reconnected(ok, clientId, order))
    ensures var e := Reconnected(ok, clientId, order); Fresh(Step(sys, e), StaleAfter(sys, stale, e))
  {
    var e := Reconnected(ok, clientId, order);
    var next, stale' := Step(sys, e), StaleAfter(sys, stale, e);
    StepKeepsPlaces(sys, e);
    if ok && 0 < sys.recon.index < |sys.d.shards| { SecondaryRequeues(sys, clientId, order); }
    forall s, ib | s in stale' && s in OnConnection(next.d, ib) ensures ib !in next.d.connected {
      assert s in OnConnection(sys.d, ib);
    }
  }

  lemma ShrinkFresh(sys: System, stale: set<Symbol>, who: Who, order: seq<Symbol>)
    requires Sound(sys) && Fresh(sys, stale) && Enabled(sys, Shrink(who, order))
    ensures Fresh(Step(sys, Shrink(who, order)), StaleAfter(sys, stale, Shrink(who, order)))
  {
    var n := |sys.d.shards| - 1;
    RequeuedEffects(sys.d.(shards := sys.d.shards[..n], clientIds := sys.d.clientIds[..n]), order);
    FreshKept(sys, stale, Shrink(who, order));
  }

  /** The exact condition, step by step: dead subscriptions stay confined to connections that are down or just coming
      back, if and only if the step is not such a revival. */
  lemma StepFreshExactly(sys: System, stale: set<Symbol>, e: Event)
    requires Sound(sys) && Fresh(sys, stale) && Enabled(sys, e)
    ensures Fresh(Step(sys, e), StaleAfter(sys, stale, e)) <==> !Revives(sys, stale, e)
  {
    match e
    case Connect(ib) => ConnectFresh(sys, stale, ib);
    case VisitShard(i) => VisitFresh(sys, stale, i);
    case Reconnected(ok, clientId, order) => ReconnectedFresh(sys, stale, ok, clientId, order);
    case Shrink(who, order) => ShrinkFresh(sys, stale, who, order);
    case RequeueAll => RequeueAllFresh(sys, stale);
    case QueueAdded(who, order, rtOrder) => QueueAddedFresh(sys, stale, who, order, rtOrder);
    case Drop(who, order, rtOrder) => DropFresh(sys, stale, who, order, rtOrder);
    case Pop(answer) =>
      PoppedKeeps(sys.d, answer);
      FreshKept(sys, stale, e);
    case _ => FreshKept(sys, stale, e);
  }

  lemma DropFresh(sys: System, stale: set<Symbol>, who: Who, order: seq<Symbol>, rtOrder: seq<Symbol>)
    requires Sound(sys) && Fresh(sys, stale) && Enabled(sys, Drop(who, order, rtOrder))
    ensures Fresh(Step(sys, Drop(who, order, rtOrder)), StaleAfter(sys, stale, Drop(who, order, rtOrder)))
  {
    RealtimesCancelledEffects(sys.d, rtOrder);
    DroppedEffects(RealtimesCancelled(sys.d, rtOrder), order);
    FreshKept(sys, stale, Drop(who, order, rtOrder));
  }

  lemma QueueAddedFresh(sys: System, stale: set<Symbol>, who: Who, order: seq<Symbol>, rtOrder: seq<Symbol>)
    requires Sound(sys) && Fresh(sys, stale) && Enabled(sys, QueueAdded(who, order, rtOrder))
    ensures Fresh(Step(sys, QueueAdded(who, order, rtOrder)), StaleAfter(sys, stale, QueueAdded(who, order, rtOrder)))
  {
    MarkedEffects(sys.d, order);
    QuotesQueuedEffects(Marked(sys.d, order), order);
    RealtimesQueuedEffects(QuotesQueued(Marked(sys.d, order), order), rtOrder);
    FreshKept(sys, stale, QueueAdded(who, order, rtOrder));
  }

  lemma RequeueAllFresh(sys: System, stale: set<Symbol>)
    requires Sound(sys) && Fresh(sys, stale) && Enabled(sys, RequeueAll)
    ensures Fresh(Step(sys, RequeueAll), StaleAfter(sys, stale, RequeueAll))
  {
    var next, stale' := Step(sys, RequeueAll), StaleAfter(sys, stale, RequeueAll);
    StepKeepsPlaces(sys, RequeueAll);
    QuotesQueuedEffects(sys.d, sys.recon.symbols);
    RealtimesQueuedEffects(QuotesQueued(sys.d, sys.recon.symbols), sys.d.active);
    forall s, ib | s in stale' && s in OnConnection(next.d, ib) ensures ib !in next.d.connected {
      assert s in OnConnection(sys.d, ib);
    }
  }

  /** Dead subscriptions after a run; none before it. */
  function StaleAfterRun(sys: System, stale: set<Symbol>, events: seq<Event>): set<Symbol>
    decreases |events|
  {
    if events == [] || !Enabled(sys, events[0]) then stale
    else StaleAfterRun(Step(sys, events[0]), StaleAfter(sys, stale, events[0]), events[1..])
  }

  /** No step of the run is a revival. */
  predicate NeverRevives(sys: System, stale: set<Symbol>, events: seq<Event>)
    decreases |events|
  {
    events != [] && Enabled(sys, events[0]) ==>
      !Revives(sys, stale, events[0])
      && NeverRevives(Step(sys, events[0]), StaleAfter(sys, stale, events[0]), events[1..])
  }

  lemma {:induction false} RunKeepsFresh(sys: System, stale: set<Symbol>, events: seq<Event>)
    requires Sound(sys) && Fresh(sys, stale) && Run(sys, events).Some? && NeverRevives(sys, stale, events)
    ensures Fresh(Run(sys, events).value, StaleAfterRun(sys, stale, events))
    decreases |events|
  {
    if events != [] {
      StepKeepsSound(sys, events[0]);
      StepFreshExactly(sys, stale, events[0]);
      RunKeepsFresh(Step(sys, events[0]), StaleAfter(sys, stale, events[0]), events[1..]);
    }
  }

  /** The symbol is on a shard whose connection is up and not just coming back. */
  predicate UpOn(sys: System, s: Symbol) {
    s in sys.d.shardOf && IsConnected(sys.d, sys.d.shardOf[s])
    && !(sys.recon.Reconnecting? && sys.recon.ib == sys.d.shards[sys.d.shardOf[s]])
  }

  /** In every run from the start without a revival: whenever a connection is up and the reconnect loop is not
      visiting it, every subscription on it was made since it last came up. */
  lemma SubscriptionsAreFresh(clientId: int, primaryUp: bool, events: seq<Event>, s: Symbol)
    requires Run(Init(clientId, primaryUp), events).Some? && NeverRevives(Init(clientId, primaryUp), {}, events)
    ensures UpOn(Run(Init(clientId, primaryUp), events).value, s) ==>
              s !in StaleAfterRun(Init(clientId, primaryUp), {}, events)
  {
    var start := Init(clientId, primaryUp);
    RunKeepsFresh(start, {}, events);
    FreshMeans(Run(start, events).value, StaleAfterRun(start, {}, events), s);
  }

  lemma FreshMeans(sys: System, stale: set<Symbol>, s: Symbol)
    requires Fresh(sys, stale)
    ensures UpOn(sys, s) ==> s !in stale
  {
    if UpOn(sys, s) { assert s in OnConnection(sys.d, sys.d.shards[sys.d.shardOf[s]]); }
  }

  // ---------------------------------------------------------------- no subscription without a watcher

  function RemovedOf(r: Refresher): set<Symbol> { if r.Clearing? then r.removed else {} }

  function RtRemovedOf(r: Refresher): set<Symbol> { if r.Clearing? then r.rtRemoved else {} }

  /** Every subscription is for a symbol that is tracked, or that a refresher has noticed is gone and will drop. */
  ghost predicate NoLeak(sys: System) {
    && (forall s :: s in sys.d.tickers ==> s in Tracked(sys.d) + RemovedOf(sys.watch) + RemovedOf(sys.act))
    && (forall s :: s in sys.d.rtBars ==> s in SetOf(sys.d.active) + RtRemovedOf(sys.act))
  }

  lemma DropNoLeak(sys: System, who: Who, order: seq<Symbol>, rtOrder: seq<Symbol>)
    requires NoLeak(sys) && Enabled(sys, Drop(who, order, rtOrder))
    ensures NoLeak(Step(sys, Drop(who, order, rtOrder)))
  {
    RealtimesCancelledEffects(sys.d, rtOrder);
    RealtimesCancelledPlaces(sys.d, rtOrder);
    DroppedEffects(RealtimesCancelled(sys.d, rtOrder), order);
    DroppedPlaces(RealtimesCancelled(sys.d, rtOrder), order);
  }

  lemma RequeuedNoLeak(d: Data, order: seq<Symbol>)
    ensures Requeued(d, order).tickers <= d.tickers && Requeued(d, order).rtBars == d.rtBars
            && Tracked(Requeued(d, order)) == Tracked(d) && Requeued(d, order).active == d.active
  {
    RequeuedEffects(d, order);
    RequeuedLeavesOthers(d, order);
    forall s | s in Requeued(d, order).tickers ensures s in d.tickers {
      if s in order { RequeuedIsQueued(d, order, s); }
    }
  }

  lemma ShrinkNoLeak(sys: System, who: Who, order: seq<Symbol>)
    requires NoLeak(sys) && Enabled(sys, Shrink(who, order))
    ensures NoLeak(Step(sys, Shrink(who, order)))
  {
    var n, m := |sys.d.shards| - 1, |sys.d.clientIds| - 1;
    var smaller := sys.d.(shards := sys.d.shards[..n], clientIds := sys.d.clientIds[..m]);
    RequeuedNoLeak(smaller, order);
    assert Tracked(smaller) == Tracked(sys.d);
  }

  lemma ReconnectedNoLeak(sys: System, ok: bool, clientId: int, order: seq<Symbol>)
    requires NoLeak(sys) && Enabled(sys, Reconnected(ok, clientId, order))
    ensures NoLeak(Step(sys, Reconnected(ok, clientId, order)))
  {
    if sys.recon.index < |sys.d.clientIds| {
      var d' := sys.d.(clientIds := sys.d.clientIds[sys.recon.index := clientId]);
      RequeuedNoLeak(d', order);
      assert Tracked(d') == Tracked(sys.d);
    }
  }

  lemma KeptNoLeak(sys: System, next: System)
    requires NoLeak(sys) && next.d.tickers <= sys.d.tickers && next.d.rtBars <= sys.d.rtBars
    requires next.d.watchlist == sys.d.watchlist && next.d.active == sys.d.active
    requires RemovedOf(next.watch) == RemovedOf(sys.watch) && RemovedOf(next.act) == RemovedOf(sys.act)
    requires RtRemovedOf(next.act) == RtRemovedOf(sys.act)
    ensures NoLeak(next)
  {
    assert Tracked(next.d) == Tracked(sys.d);
  }

  predicate SameSubscriptions(d: Data, d': Data) {
    d'.tickers == d.tickers && d'.rtBars == d.rtBars && d'.watchlist == d.watchlist && d'.active == d.active
  }

  /** Queueing subscribes nobody yet. */
  lemma QueueingSubscribesNobody(d: Data, order: seq<Symbol>, rtOrder: seq<Symbol>)
    ensures SameSubscriptions(d, WatchlistAdded(d, order)) && SameSubscriptions(d, ActiveAdded(d, order, rtOrder))
    ensures SameSubscriptions(d, RealtimesQueued(QuotesQueued(d, order), rtOrder))
  {
    MarkedEffects(d, order);
    QuotesQueuedEffects(Marked(d, order), order);
    RealtimesQueuedEffects(QuotesQueued(Marked(d, order), order), rtOrder);
    QuotesQueuedEffects(d, order);
    RealtimesQueuedEffects(QuotesQueued(d, order), rtOrder);
  }

  lemma StepKeepsNoLeak(sys: System, e: Event)
    requires NoLeak(sys) && Enabled(sys, e)
    ensures NoLeak(Step(sys, e))
  {
    match e
    case Drop(who, order, rtOrder) => DropNoLeak(sys, who, order, rtOrder);
    case Shrink(who, order) => ShrinkNoLeak(sys, who, order);
    case Reconnected(ok, clientId, order) => ReconnectedNoLeak(sys, ok, clientId, order);
    case QueueAdded(_, order, rtOrder) =>
      QueueingSubscribesNobody(sys.d, order, rtOrder);
      KeptNoLeak(sys, Step(sys, e));
    case RequeueAll =>
      QueueingSubscribesNobody(sys.d, sys.recon.symbols, sys.d.active);
      KeptNoLeak(sys, Step(sys, e));
    case _ =>
  }

  lemma {:induction false} RunKeepsNoLeak(sys: System, events: seq<Event>)
    requires NoLeak(sys) && Run(sys, events).Some?
    ensures NoLeak(Run(sys, events).value)
    decreases |events|
  {
    if events != [] {
      StepKeepsNoLeak(sys, events[0]);
      RunKeepsNoLeak(Step(sys, events[0]), events[1..]);
    }
  }

  /** After every run from the start, no exception: once the refreshers have dropped what they noticed, only tracked
      symbols have a quote subscription and only active ones have realtime bars. */
  lemma NothingLeaks(clientId: int, primaryUp: bool, events: seq<Event>)
    requires Run(Init(clientId, primaryUp), events).Some?
    ensures var sys := Run(Init(clientId, primaryUp), events).value;
            && (!sys.watch.Clearing? && !sys.act.Clearing? ==> sys.d.tickers <= Tracked(sys.d))
            && (!sys.act.Clearing? ==> sys.d.rtBars <= SetOf(sys.d.active))
  {
    RunKeepsNoLeak(Init(clientId, primaryUp), events);
  }

  // ---------------------------------------------------------------- the queue drains

  function Drained(d: Data, answers: seq<Answer>): Data
    requires d.shards != []
    decreases |answers|
  {
    if answers == [] || d.queue == [] then d else
    PoppedKeeps(d, answers[0]);
    Drained(Popped(d, answers[0]), answers[1..])
  }

  function RateLimits(answers: seq<Answer>): nat {
    if answers == [] then 0 else (if answers[0] == RateLimited then 1 else 0) + RateLimits(answers[1..])
  }

  /** After as many turns of the subscription loop as there are entries, plus one for each time TWS answered that the
      rate limit is hit, the queue is empty and every served symbol is subscribed or reported as failed. */
  lemma {:induction false} QueueDrains(d: Data, answers: seq<Answer>)
    requires SoundData(d) && |answers| >= |d.queue| + RateLimits(answers)
    ensures var d' := Drained(d, answers);
            && SoundData(d') && d'.queue == [] && Tracked(d') == Tracked(d)
            && forall s :: s in Tracked(d) && Served(d, s) ==>
                 s in d'.tickers || (s in d'.states && d'.states[s] == Failed)
    decreases |answers|
  {
    if d.queue == [] {
      assert d.queuedQuotes == {};
    } else {
      var next := Popped(d, answers[0]);
      PoppedSound(d, answers[0]);
      PoppedKeeps(d, answers[0]);
      PoppedShrinks(d, answers[0]);
      QueueDrains(next, answers[1..]);
      forall s | s in Tracked(d) && Served(d, s) ensures Served(next, s) { PoppedServes(d, answers[0], s); }
    }
  }

  lemma PoppedShrinks(d: Data, answer: Answer)
    requires d.queue != [] && d.shards != []
    ensures |Popped(d, answer).queue| <= |d.queue| - if answer == RateLimited then 0 else 1
  {
  }

  // ---------------------------------------------------------------- the losing steps happen

  ghost predicate Reaches(start: System, sys: System) {
    exists events :: Run(start, events) == Some(sys)
  }

  lemma {:induction false} RunOneMore(start: System, events: seq<Event>, sys: System, e: Event)
    requires Run(start, events) == Some(sys) && Enabled(sys, e)
    ensures Run(start, events + [e]) == Some(Step(sys, e))
    decreases |events|
  {
    if events == [] {
      assert ([] + [e])[1..] == [];
    } else {
      assert (events + [e])[1..] == events[1..] + [e];
      RunOneMore(Step(start, events[0]), events[1..], sys, e);
    }
  }

  /** One more step, to a state given by its value. */
  lemma Then(start: System, sys: System, e: Event, next: System)
    requires Reaches(start, sys) && Enabled(sys, e) && Step(sys, e) == next
    ensures Reaches(start, next)
  {
    var events :| Run(start, events) == Some(sys);
    RunOneMore(start, events, sys, e);
  }

  lemma ReachesItself(start: System)
    ensures Reaches(start, start)
  {
    assert Run(start, []) == Some(start);
  }

  lemma JustOne(a: Symbol)
    ensures SetOf([a]) == {a} && Enumerates([a], {a}) && Enumerates([], {}) && SetOf([]) == {}
  {
  }

  /** A refresher reads a new list, knowing what that adds and removes. */
  lemma NoticeWatchlist(start: System, sys: System, list: seq<Symbol>, added: set<Symbol>, removed: set<Symbol>)
    requires Reaches(start, sys) && !sys.crashed && sys.watch.Idle? && list != sys.d.watchlist
    requires var now := Tracked(sys.d.(watchlist := list));
             now - Tracked(sys.d) == added && Tracked(sys.d) - now == removed
    ensures Reaches(start, sys.(d := sys.d.(watchlist := list), watch := Clearing(added, removed, {}, {})))
  {
    Then(start, sys, ReadWatchlist(list),
        sys.(d := sys.d.(watchlist := list), watch := Clearing(added, removed, {}, {})));
  }

  /** One refresh round with nothing to drop, no shard to make, and `a` to queue. */
  lemma RefreshRound(start: System, sys: System, who: Who, a: Symbol, rt: set<Symbol>, rtOrder: seq<Symbol>)
    requires Reaches(start, sys) && !sys.crashed && RefresherOf(sys, who) == Clearing({a}, {}, rt, {})
    requires |sys.d.shards| == 1 && Tracked(sys.d) == {a} && Enumerates(rtOrder, rt)
    ensures Reaches(start, AddedQueued(sys, who, [a], rtOrder))
  {
    JustOne(a);
    var s1 := WithRefresher(sys, who, Adjusting({a}, rt, Growing(1)));
    Then(start, sys, Drop(who, [], []), s1);
    var s2 := WithRefresher(sys, who, Adjusting({a}, rt, Shrinking(1)));
    Then(start, s1, Grow(who, None), s2);
    Then(start, s2, QueueAdded(who, [a], rtOrder), AddedQueued(sys, who, [a], rtOrder));
  }

  /** The worker at rest, its one watched symbol subscribed on the primary shard. */
  function OneWatched(clientId: int, a: Symbol): System {
    System(Data([0], [clientId], {0}, 1, [a], [], {a}, {a}, map[a := 0], {}, [], {}, {}, map[a := Waiting], {a}),
           Idle, Idle, Resting, false)
  }

  /** The first refresh of the watchlist and one turn of the subscription loop lead there. */
  lemma WatchOne(clientId: int, a: Symbol)
    ensures Reaches(Init(clientId, true), OneWatched(clientId, a))
  {
    var start := Init(clientId, true);
    ReachesItself(start);
    var s1 := start.(d := start.d.(watchlist := [a]), watch := Clearing({a}, {}, {}, {}));
    assert Tracked(start.d) == {} && Tracked(s1.d) == {a};
    NoticeWatchlist(start, start, [a], {a}, {});
    JustOne(a);
    RefreshRound(start, s1, Watchlist, a, {}, []);
    SubscribeOne(start, AddedQueued(s1, Watchlist, [a], []), clientId, a);
  }

  lemma SubscribeOne(start: System, queued: System, clientId: int, a: Symbol)
    requires Reaches(start, queued)
    requires var s1 := Init(clientId, true);
             queued == AddedQueued(s1.(d := s1.d.(watchlist := [a])), Watchlist, [a], [])
    ensures Reaches(start, OneWatched(clientId, a))
  {
    var d := Init(clientId, true).d.(watchlist := [a]);
    assert d.shards[0] in d.shards && AnyConnected(d);
    QueueOne(d, a);
    QueueOne(Marked(d, [a]), a);
    assert queued.d == d.(states := map[a := Queued], queuedQuotes := {a}, queue := [Quote(a)]);
    assert Tracked(d) == {a} && ShardToUse(queued.d, a) == 0;
    Then(start, queued, Pop(Accepted), OneWatched(clientId, a));
  }

  lemma QueueOne(d: Data, a: Symbol)
    requires a !in d.tickers && a !in d.queuedQuotes
    ensures QuotesQueued(d, [a]) == d.(queuedQuotes := d.queuedQuotes + {a}, queue := d.queue + [Quote(a)])
    ensures Marked(d, [a]) == d.(states := d.states[a := Queued])
  {
    assert [a][..0] == [];
  }

  /** The symbol of that worker moves from the watchlist to the chart, and both refreshers have noticed. */
  function BothNoticed(clientId: int, a: Symbol): System {
    var s := OneWatched(clientId, a);
    s.(d := s.d.(watchlist := [], active := [a]), watch := Clearing({}, {a}, {}, {}), act := Clearing({a}, {}, {a}, {}))
  }

  lemma BothNotice(clientId: int, a: Symbol)
    ensures Reaches(Init(clientId, true), BothNoticed(clientId, a)) && Tracked(BothNoticed(clientId, a).d) == {a}
  {
    var start, s0 := Init(clientId, true), OneWatched(clientId, a);
    WatchOne(clientId, a);
    JustOne(a);
    var s1 := s0.(d := s0.d.(watchlist := []), watch := Clearing({}, {a}, {}, {}));
    assert Tracked(s0.d) == {a} && Tracked(s1.d) == {};
    NoticeWatchlist(start, s0, [], {}, {a});
    var s2 := BothNoticed(clientId, a);
    assert Tracked(s2.d) == {a};
    Then(start, s1, ReadActive([a]), s2);
  }

  /** Two refreshers overlap: the symbol moves from the watchlist to the chart, both notice, and the one that
      removes it resumes last. It ends tracked with no subscription, no queue entry, no error, and no coroutine
      about to queue it. */
  lemma OverlappingRefreshLoses(clientId: int, a: Symbol)
    ensures exists after :: Reaches(Init(clientId, true), after) && !after.crashed && InSync(after)
              && a in Tracked(after.d) && !Served(after.d, a) && a !in Pending(after)
  {
    var start, s2 := Init(clientId, true), BothNoticed(clientId, a);
    BothNotice(clientId, a);
    JustOne(a);
    RefreshRound(start, s2, ActiveSymbols, a, {a}, [a]);
    var s3 := AddedQueued(s2, ActiveSymbols, [a], [a]);
    AddedQueuedKeeps(s2, ActiveSymbols, [a], [a]);
    RemoverResumes(start, s3, a);
  }

  /** A refresher that drops the only symbol, tracked and awaited by no other coroutine, leaves it unserved. */
  lemma RemoverResumes(start: System, sys: System, a: Symbol)
    requires Reaches(start, sys) && !sys.crashed && sys.watch == Clearing({}, {a}, {}, {})
    requires sys.act.Idle? && sys.recon.Resting? && 0 in sys.d.connected && a in Tracked(sys.d)
    ensures exists after :: Reaches(start, after) && !after.crashed && InSync(after)
              && a in Tracked(after.d) && !Served(after.d, a) && a !in Pending(after)
  {
    JustOne(a);
    var after := Step(sys, Drop(Watchlist, [a], []));
    Then(start, sys, Drop(Watchlist, [a], []), after);
    DroppedServes(sys.d, [a], [], a);
    RealtimesCancelledEffects(sys.d, []);
    DroppedEffects(RealtimesCancelled(sys.d, []), [a]);
  }

  /** The primary connection of that worker drops and comes back. */
  lemma ReconnectOne(clientId: int, a: Symbol)
    ensures var s := OneWatched(clientId, a);
            Reaches(Init(clientId, true), s.(d := Cleared(s.d), recon := Requeueing([a])))
  {
    var start, s0 := Init(clientId, true), OneWatched(clientId, a);
    WatchOne(clientId, a);
    var s1 := s0.(d := s0.d.(connected := {}));
    Then(start, s0, Disconnect(0), s1);
    var s2 := s1.(recon := Reconnecting(0, 0));
    Then(start, s1, VisitShard(0), s2);
    var s3 := s0.(recon := Reconnecting(0, 0));
    Then(start, s2, Connect(0), s3);
    assert s0.d.clientIds[0 := clientId] == s0.d.clientIds;
    assert [a] + [] == [a] && Dedupe([a]) == Dedupe([a][..0]) + [a] == [a];
    Then(start, s3, Reconnected(true, clientId, []), s0.(d := Cleared(s0.d), recon := Requeueing([a])));
  }

  /** Queued again, it is refused and reported as failed. */
  lemma RefuseOne(clientId: int, a: Symbol)
    ensures var s := OneWatched(clientId, a);
            Reaches(Init(clientId, true), s.(d := Cleared(s.d).(states := map[a := Failed])))
  {
    var start, s0 := Init(clientId, true), OneWatched(clientId, a);
    ReconnectOne(clientId, a);
    var s4 := s0.(d := Cleared(s0.d), recon := Requeueing([a]));
    QueueOne(s4.d, a);
    var s5 := s0.(d := s4.d.(queuedQuotes := {a}, queue := [Quote(a)]));
    Then(start, s4, RequeueAll, s5);
    assert s5.d.shards[0] in s5.d.shards && a in Tracked(s5.d);
    Then(start, s5, Pop(Rejected), s0.(d := s4.d.(states := map[a := Failed])));
  }

  /** A late tick: after a reconnect the symbol is refused and reported as failed; a tick of its old subscription,
      still on its way, then reports it as live. */
  lemma LateTickLoses(clientId: int, a: Symbol)
    ensures exists after :: Reaches(Init(clientId, true), after) && !after.crashed && InSync(after)
              && a in Tracked(after.d) && !Served(after.d, a) && a !in Pending(after)
              && a in after.d.states && after.d.states[a] == Live
  {
    var start, s0 := Init(clientId, true), OneWatched(clientId, a);
    RefuseOne(clientId, a);
    var s6 := s0.(d := Cleared(s0.d).(states := map[a := Failed]));
    var after := s0.(d := Cleared(s0.d).(states := map[a := Live]));
    assert a in Tracked(after.d);
    Then(start, s6, TickLive(a), after);
  }

  /** The worker with its first watchlist, connecting a second shard for it. */
  function SecondConnecting(clientId: int, shardId: int, up: bool, list: seq<Symbol>): System {
    System(
      Data([0, 1], [clientId, shardId], if up then {0} else {}, 2, list, [],
           {}, {}, map[], {}, [], {}, {}, map[], {}),
      Adjusting(SetOf(list), {}, Connecting(DesiredShards(|list|), 1, 1)), Idle, Resting, false)
  }

  lemma SecondShardGrows(clientId: int, shardId: int, up: bool, list: seq<Symbol>)
    requires |list| > SHARD_THRESHOLD && Enumerates(list, SetOf(list))
    ensures Reaches(Init(clientId, up), SecondConnecting(clientId, shardId, up, list))
  {
    var start := Init(clientId, up);
    ReachesItself(start);
    assert Enumerates([], {});
    var d1 := start.d.(watchlist := list);
    assert Tracked(start.d) == {} && Tracked(d1) == SetOf(list);
    var s1 := start.(d := d1, watch := Clearing(SetOf(list), {}, {}, {}));
    NoticeWatchlist(start, start, list, SetOf(list), {});
    var s2 := s1.(watch := Adjusting(SetOf(list), {}, Growing(DesiredShards(|list|))));
    Then(start, s1, Drop(Watchlist, [], []), s2);
    Then(start, s2, Grow(Watchlist, Some(shardId)), SecondConnecting(clientId, shardId, up, list));
  }

  /** The worker ends: a shard is torn down, for a watchlist that has become short, while its connection is being
      made again. */
  lemma CrashHappens(clientId: int, shardId: int, list: seq<Symbol>)
    requires |list| > SHARD_THRESHOLD && Enumerates(list, SetOf(list))
    ensures exists after :: Reaches(Init(clientId, false), after) && after.crashed
  {
    var start, s2 := Init(clientId, false), SecondConnecting(clientId, shardId, false, list);
    var desired := DesiredShards(|list|);
    SecondShardGrows(clientId, shardId, false, list);
    var s3 := s2.(watch := Adjusting(SetOf(list), {}, Growing(desired)));
    Then(start, s2, ShardConnected(Watchlist, false, shardId), s3);
    var s4 := s3.(watch := Adjusting(SetOf(list), {}, Shrinking(desired)));
    Then(start, s3, Grow(Watchlist, None), s4);
    ShardGoesWhileConnecting(start, s4, desired, list);
  }

  /** The rest of that run: the refresh ends, the reconnect loop visits the new shard, the watchlist is emptied. */
  lemma ShardGoesWhileConnecting(start: System, sys: System, desired: nat, list: seq<Symbol>)
    requires Reaches(start, sys) && !sys.crashed && Enumerates(list, SetOf(list)) && list != []
    requires sys.d.shards == [0, 1] && |sys.d.clientIds| == 2 && sys.d.connected == {}
    requires sys.d.watchlist == list && sys.d.active == [] && sys.d.shardOf == map[]
    requires sys.watch == Adjusting(SetOf(list), {}, Shrinking(desired)) && desired >= 2
    requires sys.act == Idle && sys.recon == Resting
    ensures exists after :: Reaches(start, after) && after.crashed
  {
    assert Enumerates([], {});
    MarkedEffects(sys.d, list);
    var s1 := sys.(d := Marked(sys.d, list), watch := Idle);
    Then(start, sys, QueueAdded(Watchlist, list, []), s1);
    var s2 := s1.(recon := Reconnecting(1, 1));
    Then(start, s1, VisitShard(1), s2);
    assert Tracked(s2.d) == SetOf(list) && Tracked(s2.d.(watchlist := [])) == {};
    NoticeWatchlist(start, s2, [], {}, SetOf(list));
    ShardIsTornDown(start, s2.(d := s2.d.(watchlist := []), watch := Clearing({}, SetOf(list), {}, {})), list);
  }

  lemma ShardIsTornDown(start: System, sys: System, list: seq<Symbol>)
    requires Reaches(start, sys) && !sys.crashed && Enumerates(list, SetOf(list))
    requires sys.d.shards == [0, 1] && |sys.d.clientIds| == 2 && sys.d.shardOf == map[] && Tracked(sys.d) == {}
    requires sys.watch == Clearing({}, SetOf(list), {}, {}) && sys.act == Idle && sys.recon == Reconnecting(1, 1)
    ensures exists after :: Reaches(start, after) && after.crashed
  {
    assert Enumerates([], {});
    var d := RemovedDropped(sys.d, list, []);
    DroppedEffects(sys.d, list);
    DroppedLeavesShards(sys.d, list);
    var s1 := sys.(d := d, watch := Adjusting({}, {}, Growing(1)));
    Then(start, sys, Drop(Watchlist, list, []), s1);
    var s2 := sys.(d := d, watch := Adjusting({}, {}, Shrinking(1)));
    Then(start, s1, Grow(Watchlist, None), s2);
    assert OnShard(d, 1) == {};
    var s3 := s2.(d := ShardRemoved(d, []));
    Then(start, s2, Shrink(Watchlist, []), s3);
    var s4 := s3.(d := s3.d.(connected := s3.d.connected + {1}));
    Then(start, s3, Connect(1), s4);
    assert OnShard(s4.d, 1) == {};
    Then(start, s4, Reconnected(true, 0, []), s4.(crashed := true));
  }

  lemma {:induction false} DroppedLeavesShards(d: Data, order: seq<Symbol>)
    requires d.shardOf == map[]
    ensures Dropped(d, order).shardOf == map[] && Dropped(d, order).clientIds == d.clientIds
  {
    if order != [] { DroppedLeavesShards(d, order[..|order| - 1]); }
  }

  /** Meanwhile the chart shows another symbol, which the other refresher queues. */
  function ChartQueued(clientId: int, shardId: int, list: seq<Symbol>, a: Symbol): System {
    var s := SecondConnecting(clientId, shardId, true, list);
    s.(d := s.d.(active := [a], queue := [Quote(a), Realtime(a)], queuedQuotes := {a}, queuedRealtime := {a},
                 states := map[a := Queued]))
  }

  lemma NoticeActive(start: System, sys: System, a: Symbol)
    requires Reaches(start, sys) && !sys.crashed && sys.act.Idle? && sys.d.active == [] && a !in Tracked(sys.d)
    ensures Reaches(start, sys.(d := sys.d.(active := [a]), act := Clearing({a}, {}, {a}, {})))
            && Tracked(sys.d.(active := [a])) == Tracked(sys.d) + {a}
  {
    JustOne(a);
    var d' := sys.d.(active := [a]);
    assert Tracked(d') == Tracked(sys.d) + {a};
    assert Tracked(d') - Tracked(sys.d) == {a} && Tracked(sys.d) - Tracked(d') == {};
    assert SetOf([a]) - SetOf(sys.d.active) == {a} && SetOf(sys.d.active) - SetOf([a]) == {};
    Then(start, sys, ReadActive([a]), sys.(d := d', act := Clearing({a}, {}, {a}, {})));
  }

  /** What the end of the chart's refresh queues for it. */
  lemma QueueChart(d: Data, a: Symbol)
    requires IsConnected(d, 0) && d.queue == [] && d.queuedQuotes == {} == d.queuedRealtime && d.states == map[]
    requires a !in d.tickers && a !in d.rtBars
    ensures ActiveAdded(d, [a], [a])
            == d.(queue := [Quote(a), Realtime(a)], queuedQuotes := {a}, queuedRealtime := {a},
                  states := map[a := Queued])
  {
    QueueOne(d, a);
    QueueOne(Marked(d, [a]), a);
    var quoted := d.(states := map[a := Queued], queuedQuotes := {a}, queue := [Quote(a)]);
    assert QuotesQueued(Marked(d, [a]), [a]) == quoted;
    assert [a][..0] == [] && [Quote(a)] + [Realtime(a)] == [Quote(a), Realtime(a)];
    assert RealtimesQueued(quoted, [a]) == RealtimeQueued(quoted, a);
  }

  lemma ChartIsQueued(clientId: int, shardId: int, list: seq<Symbol>, a: Symbol)
    requires |list| > SHARD_THRESHOLD && Enumerates(list, SetOf(list)) && a !in list
    ensures Reaches(Init(clientId, true), ChartQueued(clientId, shardId, list, a))
  {
    var start, s0 := Init(clientId, true), SecondConnecting(clientId, shardId, true, list);
    SecondShardGrows(clientId, shardId, true, list);
    JustOne(a);
    assert Tracked(s0.d) == SetOf(list);
    NoticeActive(start, s0, a);
    QueueChart(s0.d.(active := [a]), a);
    ChartRefreshEnds(start, s0.(d := s0.d.(active := [a]), act := Clearing({a}, {}, {a}, {})), a);
  }

  lemma ChartRefreshEnds(start: System, sys: System, a: Symbol)
    requires Reaches(start, sys) && !sys.crashed && sys.act == Clearing({a}, {}, {a}, {})
    requires |sys.d.shards| == 2 && |Tracked(sys.d)| > SHARD_THRESHOLD
    ensures Reaches(start, sys.(d := ActiveAdded(sys.d, [a], [a]), act := Idle))
  {
    JustOne(a);
    var desired := DesiredShards(|Tracked(sys.d)|);
    var s2 := sys.(act := Adjusting({a}, {a}, Growing(desired)));
    Then(start, sys, Drop(ActiveSymbols, [], []), s2);
    var s3 := sys.(act := Adjusting({a}, {a}, Shrinking(desired)));
    Then(start, s2, Grow(ActiveSymbols, None), s3);
    Then(start, s3, QueueAdded(ActiveSymbols, [a], [a]), sys.(d := ActiveAdded(sys.d, [a], [a]), act := Idle));
  }

  /** That symbol subscribed on the second shard, the only one that is up. */
  function OnSecond(clientId: int, shardId: int, list: seq<Symbol>, a: Symbol): System {
    var s := ChartQueued(clientId, shardId, list, a);
    s.(d := s.d.(connected := {1}, queue := [Realtime(a)], queuedQuotes := {}, tickers := {a}, contracts := {a},
                 shardOf := map[a := 1], states := map[a := Waiting], handlers := {a}))
  }

  /** The primary connection drops, and the reconnect loop brings up the second one, on which there is nobody. */
  lemma SecondComesUp(start: System, sys: System, shardId: int)
    requires Reaches(start, sys) && !sys.crashed && sys.recon == Resting && sys.d.shardOf == map[]
    requires sys.d.shards == [0, 1] && |sys.d.clientIds| == 2 && sys.d.clientIds[1] == shardId
    requires sys.d.connected == {0}
    ensures Reaches(start, sys.(d := sys.d.(connected := {1})))
  {
    var s1 := sys.(d := sys.d.(connected := {}));
    Then(start, sys, Disconnect(0), s1);
    var s2 := s1.(recon := Reconnecting(1, 1));
    Then(start, s1, VisitShard(1), s2);
    var s3 := s2.(d := s2.d.(connected := {1}));
    Then(start, s2, Connect(1), s3);
    assert OnShard(s3.d, 1) == {} && Enumerates([], {});
    assert s3.d.clientIds[1 := shardId] == s3.d.clientIds;
    Then(start, s3, Reconnected(true, shardId, []), sys.(d := sys.d.(connected := {1})));
  }

  lemma SubscribesOnSecond(clientId: int, shardId: int, list: seq<Symbol>, a: Symbol)
    requires |list| > SHARD_THRESHOLD && Enumerates(list, SetOf(list)) && a !in list
    ensures Reaches(Init(clientId, true), OnSecond(clientId, shardId, list, a))
  {
    var start, s0 := Init(clientId, true), ChartQueued(clientId, shardId, list, a);
    ChartIsQueued(clientId, shardId, list, a);
    SecondComesUp(start, s0, shardId);
    var sys := s0.(d := s0.d.(connected := {1}));
    PopOnSecond(sys.d, a);
    assert sys.d.shards[1] == 1;
    Then(start, sys, Pop(Accepted), OnSecond(clientId, shardId, list, a));
  }

  lemma PopOnSecond(d: Data, a: Symbol)
    requires d.shards == [0, 1] && d.connected == {1} && a in d.active && a !in d.tickers
    requires d.queue == [Quote(a), Realtime(a)] && d.queuedQuotes == {a} && d.tickers == d.contracts == {}
    requires d.shardOf == map[] && d.handlers == {} && d.states == map[a := Queued]
    ensures AnyConnected(d)
    ensures Popped(d, Accepted)
            == d.(queue := [Realtime(a)], queuedQuotes := {}, tickers := {a}, contracts := {a}, shardOf := map[a := 1],
                  states := map[a := Waiting], handlers := {a})
  {
    var rest := d.(queue := [Realtime(a)], queuedQuotes := {});
    assert d.shards[1] == 1 && rest.shards[1] == 1;
    assert d.queue[1..] == [Realtime(a)];
    assert a in Tracked(rest) && AnyConnected(rest);
    ShardToUseConnected(rest, a);
    assert ShardToUse(rest, a) == 1;
    assert d.queuedQuotes - {a} == {} && rest == d.(queue := d.queue[1..]).(queuedQuotes := {});
    assert Popped(d, Accepted) == QuoteSubscribed(rest, a);
    assert {a} == {} + {a} && map[a := 1] == map[][a := 1] && map[a := Queued][a := Waiting] == map[a := Waiting];
  }

  /** The revival happens: the second shard drops while the refresher that made it is still connecting it, and that
      brings it up again. The symbol keeps its dead subscription on a connection that is up, and nobody queues it. */
  lemma RevivalHappens(clientId: int, shardId: int, list: seq<Symbol>, a: Symbol)
    requires |list| > SHARD_THRESHOLD && Enumerates(list, SetOf(list)) && a !in list
    ensures var before := OnSecond(clientId, shardId, list, a);
            && Reaches(Init(clientId, true), before)
            && Enabled(before, Disconnect(1))
            && var down := Step(before, Disconnect(1));
               Enabled(down, Connect(1)) && Revives(down, StaleAfter(before, {}, Disconnect(1)), Connect(1))
               && var after := Step(down, Connect(1));
                  UpOn(after, a) && a in after.d.tickers && Quote(a) !in after.d.queue && a !in Pending(after)
  {
    SubscribesOnSecond(clientId, shardId, list, a);
    var before := OnSecond(clientId, shardId, list, a);
    assert a in OnConnection(before.d, 1);
    var down := Step(before, Disconnect(1));
    assert a in StaleAfter(before, {}, Disconnect(1)) * OnConnection(down.d, 1);
    var after := Step(down, Connect(1));
    assert after.d.queue == [Realtime(a)];
    assert after.d.shards[1] == 1 && UpOn(after, a);
    assert Pending(after) == SetOf(list);
  }
}
