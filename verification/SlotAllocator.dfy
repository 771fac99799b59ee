/** The subscription manager.

- Watchlist symbols live in slots of limited size, with one client connection per slot; a symbol is in one slot only.
- Quote cards have a connection each.

What a call asks for is kept apart from what the broker lets be subscribed. */
module SlotAllocator {
  import opened Common

  const WATCHLIST_CAP := 20

  type Symbol = string

  /** `role` is the number in "watchlist:n"; `tickers` are the keys of the slot's ticker dictionary. */
  datatype Slot = Slot(role: nat, symbols: set<Symbol>, tickers: set<Symbol>)

  datatype QuoteSlot = QuoteSlot(symbol: Symbol, hasTicker: bool)

  function Union(slots: seq<Slot>): set<Symbol> {
    if slots == [] then {} else Union(slots[..|slots| - 1]) + slots[|slots| - 1].symbols
  }

  /** Slots are disjoint, of limited size, each with exactly the tickers of its symbols, under distinct roles
      below the next free number. */
  ghost predicate Consistent(slots: seq<Slot>, nextRole: nat) {
    && (forall i :: 0 <= i < |slots| ==> SlotOk(slots[i], nextRole))
    && (forall i, j :: 0 <= i < j < |slots| ==> slots[i].symbols !! slots[j].symbols && slots[i].role != slots[j].role)
  }

  predicate SlotOk(slot: Slot, nextRole: nat) {
    |slot.symbols| <= WATCHLIST_CAP && slot.tickers == slot.symbols && slot.role < nextRole
  }

  predicate NoEmptySlot(slots: seq<Slot>) {
    forall i :: 0 <= i < |slots| ==> slots[i].symbols != {}
  }

  /** All slots but the last are full. */
  predicate Packed(slots: seq<Slot>) {
    forall i :: 0 <= i < |slots| - 1 ==> |slots[i].symbols| == WATCHLIST_CAP
  }

  lemma {:induction false} UnionHas(slots: seq<Slot>, s: Symbol)
    ensures s in Union(slots) <==> exists i :: 0 <= i < |slots| && s in slots[i].symbols
  {
    if slots != [] {
      var n := |slots| - 1;
      UnionHas(slots[..n], s);
      if s in Union(slots[..n]) {
        var i :| 0 <= i < n && s in slots[..n][i].symbols;
        assert s in slots[i].symbols;
      } else if i :| 0 <= i < |slots| && s in slots[i].symbols {
        if i < n { assert s in slots[..n][i].symbols; }
      }
    }
  }

  /** Changing one slot of disjoint slots changes the union by what the slot gained and lost. */
  lemma {:induction false} UnionOfUpdate(slots: seq<Slot>, i: nat, slot: Slot)
    requires i < |slots| && forall a, b :: 0 <= a < b < |slots| ==> slots[a].symbols !! slots[b].symbols
    ensures Union(slots[i := slot]) == (Union(slots) - slots[i].symbols) + slot.symbols
  {
    var n := |slots| - 1;
    var updated := slots[i := slot];
    if i == n {
      assert updated[..n] == slots[..n];
      forall s | s in slots[n].symbols ensures s !in Union(slots[..n]) { UnionHas(slots[..n], s); }
    } else {
      UnionOfUpdate(slots[..n], i, slot);
      assert updated[..n] == slots[..n][i := slot];
    }
  }

  lemma UnionOfAppend(slots: seq<Slot>, slot: Slot)
    ensures Union(slots + [slot]) == Union(slots) + slot.symbols
  {
    assert (slots + [slot])[..|slots|] == slots;
  }

  /** Packed slots use as few connections as the cap allows. */
  lemma {:induction false} UnionSize(slots: seq<Slot>)
    requires forall a, b :: 0 <= a < b < |slots| ==> slots[a].symbols !! slots[b].symbols
    requires Packed(slots)
    ensures slots != [] ==> |Union(slots)| == (|slots| - 1) * WATCHLIST_CAP + |slots[|slots| - 1].symbols|
  {
    if slots != [] {
      var n := |slots| - 1;
      UnionSize(slots[..n]);
      forall s | s in slots[n].symbols ensures s !in Union(slots[..n]) { UnionHas(slots[..n], s); }
      assert Union(slots) == Union(slots[..n]) + slots[n].symbols;
    }
  }

  lemma PackedUsesFewest(slots: seq<Slot>, nextRole: nat)
    requires Consistent(slots, nextRole) && Packed(slots) && NoEmptySlot(slots)
    ensures |slots| == (|Union(slots)| + WATCHLIST_CAP - 1) / WATCHLIST_CAP
  {
    UnionSize(slots);
    if slots != [] { assert slots[|slots| - 1].symbols != {}; }
  }

  function NonEmpty(slots: seq<Slot>): seq<Slot> {
    if slots == [] then [] else
    NonEmpty(slots[..|slots| - 1]) + if slots[|slots| - 1].symbols == {} then [] else [slots[|slots| - 1]]
  }

  lemma {:induction false} NonEmptyAreSlots(slots: seq<Slot>, j: nat)
    requires j < |NonEmpty(slots)|
    ensures NonEmpty(slots)[j] in slots && NonEmpty(slots)[j].symbols != {}
  {
    var n := |slots| - 1;
    if j < |NonEmpty(slots[..n])| { NonEmptyAreSlots(slots[..n], j); }
  }

  lemma {:induction false} NonEmptyUnion(slots: seq<Slot>)
    ensures Union(NonEmpty(slots)) == Union(slots)
  {
    if slots != [] {
      var n := |slots| - 1;
      NonEmptyUnion(slots[..n]);
      assert NonEmpty(slots[..n]) + [] == NonEmpty(slots[..n]);
      UnionOfAppend(NonEmpty(slots[..n]), slots[n]);
    }
  }

  lemma {:induction false} NonEmptyConsistent(slots: seq<Slot>, nextRole: nat)
    requires Consistent(slots, nextRole)
    ensures Consistent(NonEmpty(slots), nextRole)
  {
    if slots != [] {
      var n := |slots| - 1;
      NonEmptyConsistent(slots[..n], nextRole);
      var rest := NonEmpty(slots[..n]);
      assert rest + [] == rest;
      forall j | 0 <= j < |rest| ensures rest[j].symbols !! slots[n].symbols && rest[j].role != slots[n].role {
        NonEmptyAreSlots(slots[..n], j);
        var i :| 0 <= i < n && slots[..n][i] == rest[j];
        assert slots[i] == rest[j];
      }
    }
  }

  /** Full slots are not empty, so at most the last one goes. */
  lemma {:induction false} NonEmptyOfFull(slots: seq<Slot>)
    requires forall i :: 0 <= i < |slots| ==> |slots[i].symbols| == WATCHLIST_CAP
    ensures NonEmpty(slots) == slots
  {
    if slots != [] { NonEmptyOfFull(slots[..|slots| - 1]); }
  }

  lemma NonEmptyKeeps(slots: seq<Slot>, nextRole: nat)
    requires Consistent(slots, nextRole)
    ensures var kept := NonEmpty(slots);
            && Consistent(kept, nextRole) && NoEmptySlot(kept) && Union(kept) == Union(slots)
            && (Packed(slots) ==> Packed(kept))
  {
    NonEmptyConsistent(slots, nextRole);
    NonEmptyUnion(slots);
    forall j | 0 <= j < |NonEmpty(slots)| ensures NonEmpty(slots)[j].symbols != {} { NonEmptyAreSlots(slots, j); }
    if Packed(slots) && slots != [] { NonEmptyOfFull(slots[..|slots| - 1]); }
  }

  lemma SlotInUnion(slots: seq<Slot>, i: nat)
    requires i < |slots|
    ensures slots[i].symbols <= Union(slots)
  {
    forall s | s in slots[i].symbols ensures s in Union(slots) { UnionHas(slots, s); }
  }

  lemma PutInSlot(slots: seq<Slot>, nextRole: nat, at: nat, symbol: Symbol)
    requires Consistent(slots, nextRole) && at < |slots| && |slots[at].symbols| < WATCHLIST_CAP
             && symbol !in Union(slots)
    ensures var slot := slots[at];
            var after := slots[at := slot.(symbols := slot.symbols + {symbol}, tickers := slot.tickers + {symbol})];
            && Consistent(after, nextRole) && Union(after) == Union(slots) + {symbol}
            && (Packed(slots) && at == |slots| - 1 ==> Packed(after))
  {
    var slot := slots[at];
    var fuller := slot.(symbols := slot.symbols + {symbol}, tickers := slot.tickers + {symbol});
    forall i | 0 <= i < |slots| ensures symbol !in slots[i].symbols { SlotInUnion(slots, i); }
    UnionOfUpdate(slots, at, fuller);
    SlotInUnion(slots, at);
  }

  function Accepted(symbols: set<Symbol>, subscribes: Symbol -> bool): set<Symbol> {
    set s | s in symbols && subscribes(s)
  }

  lemma RemoveOne(base: set<Symbol>, symbols: set<Symbol>, rest: set<Symbol>, s: Symbol)
    requires s in rest && rest <= symbols
    ensures base - (symbols - rest) - {s} == base - (symbols - (rest - {s}))
  {
  }

  lemma AcceptOne(base: set<Symbol>, symbols: set<Symbol>, rest: set<Symbol>, s: Symbol, subscribes: Symbol -> bool)
    requires s in rest && rest <= symbols && symbols !! base
    ensures s !in base + Accepted(symbols - rest, subscribes)
    ensures base + Accepted(symbols - rest, subscribes) + (if subscribes(s) then {s} else {})
         == base + Accepted(symbols - (rest - {s}), subscribes)
  {
  }

  class SubscriptionManager {
    var slots: seq<Slot>
    var nextRole: nat
    var quotes: map<string, QuoteSlot>

    ghost predicate Valid()
      reads this
    {
      Consistent(slots, nextRole) && "" !in Union(slots)
    }

    function QuoteSubscriptions(): map<string, Symbol>
      reads this
    {
      map id | id in quotes && quotes[id].symbol != "" :: quotes[id].symbol
    }

    constructor ()
      ensures Valid() && slots == [] && nextRole == 0 && quotes == map[]
    {
      slots, nextRole, quotes := [], 0, map[];
    }

    /** First slot with room, or a new one at the end. */
    method FindOrCreateSlot() returns (at: nat)
      requires Valid()
      modifies this`slots, this`nextRole
      ensures Valid() && at < |slots| && |slots[at].symbols| < WATCHLIST_CAP
      ensures forall i :: 0 <= i < at ==> |slots[i].symbols| == WATCHLIST_CAP
      ensures slots == old(slots) || slots == old(slots) + [Slot(old(nextRole), {}, {})]
      ensures Union(slots) == Union(old(slots))
      ensures old(Packed(slots)) ==> Packed(slots) && at == |slots| - 1
    {
      at := 0;
      while at < |slots|
        invariant 0 <= at <= |slots|
        invariant forall i :: 0 <= i < at ==> |slots[i].symbols| == WATCHLIST_CAP
      {
        if |slots[at].symbols| < WATCHLIST_CAP {
          return;
        }
        at := at + 1;
      }
      UnionOfAppend(slots, Slot(nextRole, {}, {}));
      slots := slots + [Slot(nextRole, {}, {})];
      nextRole := nextRole + 1;
    }

    /** `_watchlist_sub`; `subscribes` says whether the connection and the market data request succeed. */
    method WatchlistSub(symbol: Symbol, subscribes: bool)
      requires Valid() && symbol !in Union(slots) && symbol != ""
      modifies this`slots, this`nextRole
      ensures Valid()
      ensures Union(slots) == Union(old(slots)) + if subscribes then {symbol} else {}
      ensures old(Packed(slots)) ==> Packed(slots)
    {
      var at := FindOrCreateSlot();
      if subscribes {
        PutInSlot(slots, nextRole, at, symbol);
        var slot := slots[at];
        slots := slots[at := slot.(symbols := slot.symbols + {symbol}, tickers := slot.tickers + {symbol})];
      }
      assert Union(old(slots)) + {} == Union(old(slots));
    }

    /** `_watchlist_unsub` */
    method WatchlistUnsub(symbol: Symbol)
      requires Valid()
      modifies this`slots
      ensures Valid()
      ensures Union(slots) == Union(old(slots)) - {symbol}
    {
      for i := 0 to |slots|
        invariant slots == old(slots)
        invariant forall j :: 0 <= j < i ==> symbol !in slots[j].symbols
      {
        if symbol in slots[i].symbols {
          var slot := slots[i];
          var thinner := slot.(symbols := slot.symbols - {symbol}, tickers := slot.tickers - {symbol});
          SubsetSize(thinner.symbols, slot.symbols);
          UnionOfUpdate(slots, i, thinner);
          forall j | 0 <= j < |slots| && j != i ensures symbol !in slots[j].symbols {
          }
          OnlyHere(slots, i, symbol);
          slots := slots[i := thinner];
          return;
        }
      }
      UnionHas(slots, symbol);
    }

    /** Disconnects and drops the slots without symbols. */
    method DropEmptySlots()
      requires Valid()
      modifies this`slots
      ensures Valid() && NoEmptySlot(slots) && Union(slots) == Union(old(slots))
      ensures old(Packed(slots)) ==> Packed(slots)
    {
      ghost var before := slots;
      var kept: seq<Slot> := [];
      for i := 0 to |slots|
        invariant slots == before
        invariant kept == NonEmpty(slots[..i])
      {
        assert slots[..i + 1][..i] == slots[..i];
        if slots[i].symbols != {} {
          kept := kept + [slots[i]];
        }
      }
      assert slots[..|slots|] == slots;
      NonEmptyKeeps(slots, nextRole);
      slots := kept;
    }

    /** `update_watchlist`; `subscribes` says which symbols can be subscribed. Symbols kept stay, symbols no longer
        wanted go, new ones are there if their subscription succeeded, and no slot is empty. */
    method UpdateWatchlist(symbols: seq<Symbol>, subscribes: Symbol -> bool)
      requires Valid()
      modifies this`slots, this`nextRole
      ensures Valid() && NoEmptySlot(slots)
      ensures Union(slots) == set s | s in symbols && s != "" && (s in Union(old(slots)) || subscribes(s))
      ensures old(Packed(slots)) && (forall s :: s in Union(old(slots)) ==> s in symbols && s != "") ==> Packed(slots)
    {
      var desired := set s | s in symbols && s != "";
      var current := CurrentSymbols();
      var toAdd, toRemove := desired - current, current - desired;
      UnsubAll(toRemove);
      SubAll(toAdd, subscribes);
      DropEmptySlots();
    }

    method CurrentSymbols() returns (current: set<Symbol>)
      ensures current == Union(slots)
    {
      current := {};
      for i := 0 to |slots|
        invariant current == Union(slots[..i])
      {
        assert slots[..i + 1][..i] == slots[..i];
        current := current + slots[i].symbols;
      }
      assert slots[..|slots|] == slots;
    }

    method UnsubAll(symbols: set<Symbol>)
      requires Valid()
      modifies this`slots
      ensures Valid() && Union(slots) == Union(old(slots)) - symbols
      ensures symbols == {} ==> slots == old(slots)
    {
      ghost var base := Union(slots);
      var rest := symbols;
      assert base - (symbols - rest) == base;
      while rest != {}
        invariant Valid() && rest <= symbols
        invariant Union(slots) == base - (symbols - rest)
        invariant symbols == {} ==> slots == old(slots)
        decreases |rest|
      {
        var s :| s in rest;
        RemoveOne(base, symbols, rest, s);
        WatchlistUnsub(s);
        rest := rest - {s};
      }
      assert symbols - rest == symbols;
    }

    method SubAll(symbols: set<Symbol>, subscribes: Symbol -> bool)
      requires Valid() && symbols !! Union(slots) && "" !in symbols
      modifies this`slots, this`nextRole
      ensures Valid()
      ensures Union(slots) == Union(old(slots)) + Accepted(symbols, subscribes)
      ensures old(Packed(slots)) ==> Packed(slots)
    {
      ghost var base := Union(slots);
      var rest := symbols;
      while rest != {}
        invariant Valid() && rest <= symbols
        invariant Union(slots) == base + Accepted(symbols - rest, subscribes)
        invariant old(Packed(slots)) ==> Packed(slots)
        decreases |rest|
      {
        var s :| s in rest;
        AcceptOne(base, symbols, rest, s, subscribes);
        WatchlistSub(s, subscribes(s));
        rest := rest - {s};
      }
      assert symbols - rest == symbols;
    }

    // ---- quote cards

    /** `quote_subscribe`: the card shows the symbol even if the subscription fails. */
    method QuoteSubscribe(id: string, symbol: Symbol, subscribes: bool)
      modifies this`quotes
      ensures id in quotes && quotes[id].symbol == symbol
      ensures quotes == old(quotes)[id := quotes[id]]
      ensures quotes[id].hasTicker ==
              (if id in old(quotes) && old(quotes)[id].symbol == symbol then old(quotes)[id].hasTicker else subscribes)
    {
      if id in quotes {
        if quotes[id].symbol == symbol {
          return;
        }
        quotes := quotes[id := QuoteSlot(symbol, false)];
      } else {
        quotes := quotes[id := QuoteSlot(symbol, false)];
      }
      if subscribes {
        quotes := quotes[id := QuoteSlot(symbol, true)];
      }
    }

    method QuoteUnsubscribe(id: string)
      modifies this`quotes
      ensures quotes == old(quotes) - {id}
    {
      quotes := quotes - {id};
    }

    method ResubscribeQuotes(subscribes: string -> bool)
      modifies this`quotes
      ensures QuoteSubscriptions() == old(QuoteSubscriptions())
      ensures forall id :: id in quotes ==> quotes[id].hasTicker == subscribes(id)
    {
      var before := quotes;
      quotes := map[];
      var ids := before.Keys;
      while ids != {}
        invariant ids <= before.Keys
        invariant forall id :: id in quotes <==> id in before && id !in ids && before[id].symbol != ""
        invariant forall id :: id in quotes ==> quotes[id] == QuoteSlot(before[id].symbol, subscribes(id))
        decreases |ids|
      {
        var id :| id in ids;
        ids := ids - {id};
        if before[id].symbol != "" {
          QuoteSubscribe(id, before[id].symbol, subscribes(id));
        }
      }
    }

    /** `resubscribe_all`: the quote map is preserved; the watchlist keeps what can be subscribed again, in as few
        slots as the cap allows. */
    method ResubscribeAll(subscribes: Symbol -> bool, quoteSubscribes: string -> bool)
      requires Valid()
      modifies this
      ensures Valid() && NoEmptySlot(slots)
      ensures Union(slots) == set s | s in Union(old(slots)) && subscribes(s)
      ensures |slots| == (|Union(slots)| + WATCHLIST_CAP - 1) / WATCHLIST_CAP
      ensures QuoteSubscriptions() == old(QuoteSubscriptions())
      ensures forall id :: id in quotes ==> quotes[id].hasTicker == quoteSubscribes(id)
    {
      var all := ListOf(Union(slots));
      slots := [];
      if all != [] {
        UpdateWatchlist(all, subscribes);
      } else {
        assert Union(old(slots)) == {};
      }
      PackedUsesFewest(slots, nextRole);
      ResubscribeQuotes(quoteSubscribes);
    }
  }

  method ListOf(s: set<Symbol>) returns (list: seq<Symbol>)
    ensures forall x :: x in list <==> x in s
  {
    list := [];
    var rest := s;
    while rest != {}
      invariant rest <= s && forall x :: x in s <==> x in rest || x in list
      decreases |rest|
    {
      var x :| x in rest;
      rest, list := rest - {x}, list + [x];
    }
  }

  lemma OnlyHere(slots: seq<Slot>, i: nat, symbol: Symbol)
    requires i < |slots| && symbol in slots[i].symbols
    requires forall a, b :: 0 <= a < b < |slots| ==> slots[a].symbols !! slots[b].symbols
    ensures (Union(slots) - slots[i].symbols) + (slots[i].symbols - {symbol}) == Union(slots) - {symbol}
  {
    forall s | s in slots[i].symbols ensures s in Union(slots) { UnionHas(slots, s); }
  }
}
