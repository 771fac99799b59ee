/** Custom strategies on a bar series: memoised value sources, a score mode and a latching signal mode. */
module StrategyEvaluator {
  import opened Common
  import opened Bars

  /** A JavaScript number: finite, or NaN or infinite. Finite arithmetic is exact. */
  datatype Num = Finite(v: real) | NotFinite

  datatype State = Buy | Sell | Neutral

  datatype Field = Last | Open | High | Low | PrevClose | Change | ChangePct | Volume

  datatype Source = Quote(field: Field) | Indicator(name: string, params: map<string, real>, output: string)

  datatype Operator = Above | Below | Equal | NotEqual

  datatype Target = Threshold(value: Num) | Other(source: Source)

  datatype Side = BuySide | SellSide

  datatype Condition = Condition(left: Source, operator: Operator, target: Target, side: Side)

  datatype Strategy = Strategy(conditions: seq<Condition>, buyThreshold: Num, sellThreshold: Num, signal: bool)

  /** The indicator library: raw output series, perhaps shorter than the bars, and which outputs are markers. */
  datatype Library = Library(raw: (Source, seq<Bar>) -> seq<Num>, marker: Source -> bool)

  // ---------------------------------------------------------------- value sources

  function PriceAt(field: Field, bars: seq<Bar>, i: nat): Num
    requires i < |bars|
  {
    var bar := bars[i];
    match field
    case Last => Finite(bar.close)
    case Open => Finite(bar.open)
    case High => Finite(bar.high)
    case Low => Finite(bar.low)
    case PrevClose => if i > 0 then Finite(bars[i - 1].close) else NotFinite
    case Change => if i > 0 then Finite(bar.close - bars[i - 1].close) else NotFinite
    case ChangePct =>
      if i > 0 && bars[i - 1].close != 0.0
      then Finite((bar.close - bars[i - 1].close) / bars[i - 1].close * 100.0)
      else NotFinite
    case Volume => Finite(bar.volume)
  }

  function ItemOr(series: seq<Num>, i: nat): Num {
    if i < |series| then series[i] else NotFinite
  }

  /** Value of a source at bar `i`: a price, or the indicator's output with gaps as NaN and markers as 0 and 1. */
  function ValueAt(lib: Library, source: Source, bars: seq<Bar>, i: nat): Num
    requires i < |bars|
  {
    if source.Quote? then PriceAt(source.field, bars, i)
    else
      var raw := ItemOr(lib.raw(source, bars), i);
      if lib.marker(source) then Finite(if raw.Finite? then 1.0 else 0.0) else raw
  }

  function Series(lib: Library, source: Source, bars: seq<Bar>): (series: seq<Num>)
    ensures |series| == |bars|
  {
    seq(|bars|, i requires 0 <= i < |bars| => ValueAt(lib, source, bars, i))
  }

  type Cache = map<Source, seq<Num>>

  ghost predicate CacheHolds(lib: Library, bars: seq<Bar>, cache: Cache) {
    forall s :: s in cache ==> cache[s] == Series(lib, s, bars)
  }

  method EvaluateSource(lib: Library, source: Source, bars: seq<Bar>, cache: Cache)
    returns (values: seq<Num>, cache': Cache)
    requires CacheHolds(lib, bars, cache)
    ensures values == Series(lib, source, bars)
    ensures CacheHolds(lib, bars, cache')
  {
    if source in cache {
      return cache[source], cache;
    }
    values := Series(lib, source, bars);
    cache' := cache[source := values];
  }

  // ---------------------------------------------------------------- conditions

  predicate Resolve(left: real, right: real, operator: Operator) {
    match operator
    case Above => left > right
    case Below => left < right
    case Equal => left == right
    case NotEqual => left != right
  }

  function RightAt(lib: Library, c: Condition, bars: seq<Bar>, i: nat): Num
    requires i < |bars|
  {
    if c.target.Threshold? then c.target.value else ValueAt(lib, c.target.source, bars, i)
  }

  /** Whether the condition can be judged at bar `i`. */
  predicate Judged(lib: Library, c: Condition, bars: seq<Bar>, i: nat)
    requires i < |bars|
  {
    ValueAt(lib, c.left, bars, i).Finite? && RightAt(lib, c, bars, i).Finite?
  }

  predicate Met(lib: Library, c: Condition, bars: seq<Bar>, i: nat)
    requires i < |bars|
  {
    Judged(lib, c, bars, i) && Resolve(ValueAt(lib, c.left, bars, i).v, RightAt(lib, c, bars, i).v, c.operator)
  }

  /** One condition at one bar, through the cache: None when a side is not finite, else the comparison. */
  method JudgeCondition(lib: Library, c: Condition, bars: seq<Bar>, i: nat, cache: Cache)
    returns (verdict: Option<bool>, cache': Cache)
    requires i < |bars| && CacheHolds(lib, bars, cache)
    ensures verdict == if Judged(lib, c, bars, i) then Some(Met(lib, c, bars, i)) else None
    ensures var l, r := ValueAt(lib, c.left, bars, i), RightAt(lib, c, bars, i);
            && (verdict.None? <==> !(l.Finite? && r.Finite?))
            && (verdict.Some? ==>
                  && (c.operator == Above ==> (verdict.value <==> l.v > r.v))
                  && (c.operator == Below ==> (verdict.value <==> l.v < r.v))
                  && (c.operator == Equal ==> (verdict.value <==> l.v == r.v))
                  && (c.operator == NotEqual ==> (verdict.value <==> l.v != r.v)))
    ensures CacheHolds(lib, bars, cache')
  {
    var left;
    left, cache' := EvaluateSource(lib, c.left, bars, cache);
    if !left[i].Finite? {
      return None, cache';
    }
    var right := NotFinite;
    if c.target.Threshold? {
      right := c.target.value;
    } else {
      var series;
      series, cache' := EvaluateSource(lib, c.target.source, bars, cache');
      right := series[i];
    }
    if !right.Finite? {
      return None, cache';
    }
    verdict := Some(Resolve(left[i].v, right.v, c.operator));
  }

  // ---------------------------------------------------------------- what the evaluation means

  predicate Fires(lib: Library, conditions: seq<Condition>, side: Side, bars: seq<Bar>, i: nat)
    requires i < |bars|
  {
    exists c :: c in conditions && c.side == side && Met(lib, c, bars, i)
  }

  /** The side that fired alone at bar `i`, if one did. */
  function FiredAlone(lib: Library, st: Strategy, bars: seq<Bar>, i: nat): State
    requires i < |bars|
  {
    var buy := Fires(lib, st.conditions, BuySide, bars, i);
    var sell := Fires(lib, st.conditions, SellSide, bars, i);
    if buy && !sell then Buy else if sell && !buy then Sell else Neutral
  }

  function LatchedAt(lib: Library, st: Strategy, bars: seq<Bar>, i: nat): State
    requires i < |bars|
  {
    var fired := FiredAlone(lib, st, bars, i);
    if fired != Neutral then fired else if i == 0 then Neutral else LatchedAt(lib, st, bars, i - 1)
  }

  function CountJudged(lib: Library, conditions: seq<Condition>, bars: seq<Bar>, i: nat): nat
    requires i < |bars|
  {
    if conditions == [] then 0 else
    var n := |conditions| - 1;
    CountJudged(lib, conditions[..n], bars, i) + if Judged(lib, conditions[n], bars, i) then 1 else 0
  }

  function CountMet(lib: Library, conditions: seq<Condition>, bars: seq<Bar>, i: nat): nat
    requires i < |bars|
  {
    if conditions == [] then 0 else
    var n := |conditions| - 1;
    CountMet(lib, conditions[..n], bars, i) + if Met(lib, conditions[n], bars, i) then 1 else 0
  }

  /** `Math.round((matches / total) * 100)` */
  function Score(matches: nat, total: nat): Num {
    if total == 0 then NotFinite else Finite((matches as real / total as real * 100.0 + 0.5).Floor as real)
  }

  function ClampThreshold(value: Num, fallback: real): real {
    if !value.Finite? then fallback else Max(0.0, Min(100.0, value.v))
  }

  function DeriveState(score: Num, buyThreshold: real, sellThreshold: real): State {
    if !score.Finite? then Neutral
    else if score.v >= buyThreshold then Buy
    else if score.v <= sellThreshold then Sell
    else Neutral
  }

  function ScoreAt(lib: Library, st: Strategy, bars: seq<Bar>, i: nat): Num
    requires i < |bars|
  {
    if st.signal then
      match LatchedAt(lib, st, bars, i) case Buy => Finite(100.0) case Sell => Finite(0.0) case Neutral => NotFinite
    else Score(CountMet(lib, st.conditions, bars, i), CountJudged(lib, st.conditions, bars, i))
  }

  function StateAt(lib: Library, st: Strategy, bars: seq<Bar>, i: nat): State
    requires i < |bars|
  {
    if st.signal then LatchedAt(lib, st, bars, i)
    else DeriveState(ScoreAt(lib, st, bars, i), ClampThreshold(st.buyThreshold, 70.0),
        ClampThreshold(st.sellThreshold, 30.0))
  }

  function BuyMarkerAt(lib: Library, st: Strategy, bars: seq<Bar>, i: nat): Num
    requires i < |bars|
  {
    if i > 0 && StateAt(lib, st, bars, i) == Buy && StateAt(lib, st, bars, i - 1) != Buy
    then Finite(bars[i].low) else NotFinite
  }

  function SellMarkerAt(lib: Library, st: Strategy, bars: seq<Bar>, i: nat): Num
    requires i < |bars|
  {
    if i > 0 && StateAt(lib, st, bars, i) == Sell && StateAt(lib, st, bars, i - 1) != Sell
    then Finite(bars[i].high) else NotFinite
  }

  function LastFinite(series: seq<Num>): Num {
    if series == [] then NotFinite
    else if series[|series| - 1].Finite? then series[|series| - 1]
    else LastFinite(series[..|series| - 1])
  }

  function LastNotNeutral(states: seq<State>): State {
    if states == [] then Neutral
    else if states[|states| - 1] != Neutral then states[|states| - 1]
    else LastNotNeutral(states[..|states| - 1])
  }

  datatype Evaluation = Evaluation(
    scores: seq<Num>, states: seq<State>, buyMarkers: seq<Num>, sellMarkers: seq<Num>,
    latestScore: Num, latestState: State)

  /** The evaluation bar by bar, with no cache. */
  function Evaluated(lib: Library, st: Strategy, bars: seq<Bar>): Evaluation {
    var scores := seq(|bars|, i requires 0 <= i < |bars| => ScoreAt(lib, st, bars, i));
    var states := seq(|bars|, i requires 0 <= i < |bars| => StateAt(lib, st, bars, i));
    Evaluation(
      scores, states,
      seq(|bars|, i requires 0 <= i < |bars| => BuyMarkerAt(lib, st, bars, i)),
      seq(|bars|, i requires 0 <= i < |bars| => SellMarkerAt(lib, st, bars, i)),
      LastFinite(scores),
      if st.signal then LastNotNeutral(states)
      else DeriveState(LastFinite(scores), ClampThreshold(st.buyThreshold, 70.0),
          ClampThreshold(st.sellThreshold, 30.0)))
  }

  // ---------------------------------------------------------------- the loops

  method SignalsAt(lib: Library, conditions: seq<Condition>, bars: seq<Bar>, i: nat, cache: Cache)
    returns (buyFired: bool, sellFired: bool, cache': Cache)
    requires i < |bars| && CacheHolds(lib, bars, cache)
    ensures buyFired == Fires(lib, conditions, BuySide, bars, i)
    ensures sellFired == Fires(lib, conditions, SellSide, bars, i)
    ensures CacheHolds(lib, bars, cache')
  {
    buyFired, sellFired, cache' := false, false, cache;
    for n := 0 to |conditions|
      invariant buyFired == Fires(lib, conditions[..n], BuySide, bars, i)
      invariant sellFired == Fires(lib, conditions[..n], SellSide, bars, i)
      invariant CacheHolds(lib, bars, cache')
    {
      var c := conditions[n];
      assert conditions[..n + 1] == conditions[..n] + [c];
      FiresGrows(lib, conditions[..n], c, bars, i);
      var verdict;
      verdict, cache' := JudgeCondition(lib, c, bars, i, cache');
      if verdict == Some(true) {
        if c.side == SellSide { sellFired := true; } else { buyFired := true; }
      }
    }
    assert conditions[..|conditions|] == conditions;
  }

  lemma FiresGrows(lib: Library, conditions: seq<Condition>, c: Condition, bars: seq<Bar>, i: nat)
    requires i < |bars|
    ensures forall side :: Fires(lib, conditions + [c], side, bars, i) <==>
              (Fires(lib, conditions, side, bars, i) || (c.side == side && Met(lib, c, bars, i)))
  {
    forall side
      ensures Fires(lib, conditions + [c], side, bars, i) <==>
                (Fires(lib, conditions, side, bars, i) || (c.side == side && Met(lib, c, bars, i)))
    {
      if c.side == side && Met(lib, c, bars, i) { assert c in conditions + [c]; }
      if Fires(lib, conditions, side, bars, i) {
        var d :| d in conditions && d.side == side && Met(lib, d, bars, i);
        assert d in conditions + [c];
      }
    }
  }

  method CountsAt(lib: Library, conditions: seq<Condition>, bars: seq<Bar>, i: nat, cache: Cache)
    returns (total: nat, matches: nat, cache': Cache)
    requires i < |bars| && CacheHolds(lib, bars, cache)
    ensures total == CountJudged(lib, conditions, bars, i) && matches == CountMet(lib, conditions, bars, i)
    ensures CacheHolds(lib, bars, cache')
  {
    total, matches, cache' := 0, 0, cache;
    for n := 0 to |conditions|
      invariant total == CountJudged(lib, conditions[..n], bars, i)
                && matches == CountMet(lib, conditions[..n], bars, i)
      invariant CacheHolds(lib, bars, cache')
    {
      assert conditions[..n + 1][..n] == conditions[..n];
      var verdict;
      verdict, cache' := JudgeCondition(lib, conditions[n], bars, i, cache');
      if verdict.Some? {
        total := total + 1;
        if verdict.value { matches := matches + 1; }
      }
    }
    assert conditions[..|conditions|] == conditions;
  }

  method FillSignalMode(lib: Library, st: Strategy, bars: seq<Bar>, scores: array<Num>, states: array<State>)
    requires st.signal && scores.Length == states.Length == |bars|
    modifies scores, states
    ensures forall i :: 0 <= i < |bars| ==>
              scores[i] == ScoreAt(lib, st, bars, i) && states[i] == StateAt(lib, st, bars, i)
  {
    var cache: Cache := map[];
    var lastState := Neutral;
    for i := 0 to |bars|
      invariant CacheHolds(lib, bars, cache)
      invariant lastState == if i == 0 then Neutral else LatchedAt(lib, st, bars, i - 1)
      invariant forall j :: 0 <= j < i ==>
                  scores[j] == ScoreAt(lib, st, bars, j) && states[j] == StateAt(lib, st, bars, j)
    {
      var buyFired, sellFired;
      buyFired, sellFired, cache := SignalsAt(lib, st.conditions, bars, i, cache);
      if buyFired && !sellFired {
        lastState := Buy;
      } else if sellFired && !buyFired {
        lastState := Sell;
      }
      states[i] := lastState;
      scores[i] := match lastState case Buy => Finite(100.0) case Sell => Finite(0.0) case Neutral => NotFinite;
    }
  }

  method FillScoreMode(lib: Library, st: Strategy, bars: seq<Bar>, scores: array<Num>, states: array<State>)
    requires !st.signal && scores.Length == states.Length == |bars|
    modifies scores, states
    ensures forall i :: 0 <= i < |bars| ==>
              scores[i] == ScoreAt(lib, st, bars, i) && states[i] == StateAt(lib, st, bars, i)
  {
    var cache: Cache := map[];
    var buyThreshold, sellThreshold := ClampThreshold(st.buyThreshold, 70.0), ClampThreshold(st.sellThreshold, 30.0);
    for i := 0 to |bars|
      invariant CacheHolds(lib, bars, cache)
      invariant forall j :: 0 <= j < i ==>
                  scores[j] == ScoreAt(lib, st, bars, j) && states[j] == StateAt(lib, st, bars, j)
    {
      var total, matches;
      total, matches, cache := CountsAt(lib, st.conditions, bars, i, cache);
      scores[i] := Score(matches, total);
      states[i] := DeriveState(scores[i], buyThreshold, sellThreshold);
    }
  }

  /** A marker wherever the state turns to one side. */
  method FillMarkers(lib: Library, st: Strategy, bars: seq<Bar>, states: array<State>,
                     buyMarkers: array<Num>, sellMarkers: array<Num>)
    requires states.Length == buyMarkers.Length == sellMarkers.Length == |bars| && buyMarkers != sellMarkers
    requires forall j :: 0 <= j < |bars| ==> states[j] == StateAt(lib, st, bars, j)
    requires forall j :: 0 <= j < |bars| ==> buyMarkers[j] == NotFinite && sellMarkers[j] == NotFinite
    modifies buyMarkers, sellMarkers
    ensures forall j :: 0 <= j < |bars| ==> buyMarkers[j] == BuyMarkerAt(lib, st, bars, j)
    ensures forall j :: 0 <= j < |bars| ==> sellMarkers[j] == SellMarkerAt(lib, st, bars, j)
  {
    var i := 1;
    while i < |bars|
      invariant 1 <= i
      invariant forall j :: 0 <= j < i && j < |bars| ==> buyMarkers[j] == BuyMarkerAt(lib, st, bars, j)
      invariant forall j :: 0 <= j < i && j < |bars| ==> sellMarkers[j] == SellMarkerAt(lib, st, bars, j)
      invariant forall j :: i <= j < |bars| ==> buyMarkers[j] == NotFinite && sellMarkers[j] == NotFinite
    {
      var prev, curr := states[i - 1], states[i];
      if curr == Buy && prev != Buy {
        buyMarkers[i] := Finite(bars[i].low);
      } else if curr == Sell && prev != Sell {
        sellMarkers[i] := Finite(bars[i].high);
      }
      i := i + 1;
    }
  }

  /** `evaluateCustomStrategy`: the cache changes nothing. */
  method EvaluateCustomStrategy(lib: Library, st: Strategy, bars: seq<Bar>) returns (e: Evaluation)
    ensures e == Evaluated(lib, st, bars)
  {
    var len := |bars|;
    var scores := new Num[len](_ => NotFinite);
    var states := new State[len](_ => Neutral);
    var buyMarkers := new Num[len](_ => NotFinite);
    var sellMarkers := new Num[len](_ => NotFinite);
    if st.signal {
      FillSignalMode(lib, st, bars, scores, states);
    } else {
      FillScoreMode(lib, st, bars, scores, states);
    }
    FillMarkers(lib, st, bars, states, buyMarkers, sellMarkers);
    var want := Evaluated(lib, st, bars);
    assert scores[..] == want.scores && states[..] == want.states;
    assert buyMarkers[..] == want.buyMarkers && sellMarkers[..] == want.sellMarkers;
    var latestScore := LastFinite(scores[..]);
    e := Evaluation(scores[..], states[..], buyMarkers[..], sellMarkers[..], latestScore,
                    if st.signal then LastNotNeutral(states[..])
                    else DeriveState(latestScore, ClampThreshold(st.buyThreshold, 70.0),
                        ClampThreshold(st.sellThreshold, 30.0)));
  }

  // ---------------------------------------------------------------- no look-ahead

  /** No indicator output changes when later bars arrive. */
  ghost predicate Causal(lib: Library) {
    forall source, bars: seq<Bar>, n, i {:trigger ItemOr(lib.raw(source, bars[..n]), i)} ::
      0 <= i < n <= |bars| ==> ItemOr(lib.raw(source, bars[..n]), i) == ItemOr(lib.raw(source, bars), i)
  }

  lemma ValueStable(lib: Library, source: Source, bars: seq<Bar>, n: nat, i: nat)
    requires Causal(lib) && i < n <= |bars|
    ensures ValueAt(lib, source, bars[..n], i) == ValueAt(lib, source, bars, i)
  {
    assert bars[..n][i] == bars[i];
    if source.Indicator? {
      assert ItemOr(lib.raw(source, bars[..n]), i) == ItemOr(lib.raw(source, bars), i);
    }
  }

  lemma ConditionStable(lib: Library, c: Condition, bars: seq<Bar>, n: nat, i: nat)
    requires Causal(lib) && i < n <= |bars|
    ensures Judged(lib, c, bars[..n], i) == Judged(lib, c, bars, i) && Met(lib, c, bars[..n], i) == Met(lib, c, bars, i)
  {
    ValueStable(lib, c.left, bars, n, i);
    if c.target.Other? { ValueStable(lib, c.target.source, bars, n, i); }
  }

  lemma FiredStable(lib: Library, st: Strategy, bars: seq<Bar>, n: nat, i: nat)
    requires Causal(lib) && i < n <= |bars|
    ensures FiredAlone(lib, st, bars[..n], i) == FiredAlone(lib, st, bars, i)
  {
    forall c | c in st.conditions ensures Met(lib, c, bars[..n], i) == Met(lib, c, bars, i) {
      ConditionStable(lib, c, bars, n, i);
    }
  }

  lemma {:induction false} LatchedStable(lib: Library, st: Strategy, bars: seq<Bar>, n: nat, i: nat)
    requires Causal(lib) && i < n <= |bars|
    ensures LatchedAt(lib, st, bars[..n], i) == LatchedAt(lib, st, bars, i)
  {
    FiredStable(lib, st, bars, n, i);
    if i > 0 { LatchedStable(lib, st, bars, n, i - 1); }
  }

  lemma {:induction false} CountsStable(lib: Library, conditions: seq<Condition>, bars: seq<Bar>, n: nat, i: nat)
    requires Causal(lib) && i < n <= |bars|
    ensures CountJudged(lib, conditions, bars[..n], i) == CountJudged(lib, conditions, bars, i)
    ensures CountMet(lib, conditions, bars[..n], i) == CountMet(lib, conditions, bars, i)
  {
    if conditions != [] {
      var m := |conditions| - 1;
      CountsStable(lib, conditions[..m], bars, n, i);
      ConditionStable(lib, conditions[m], bars, n, i);
    }
  }

  lemma BarStable(lib: Library, st: Strategy, bars: seq<Bar>, n: nat, i: nat)
    requires Causal(lib) && i < n <= |bars|
    ensures ScoreAt(lib, st, bars[..n], i) == ScoreAt(lib, st, bars, i)
    ensures StateAt(lib, st, bars[..n], i) == StateAt(lib, st, bars, i)
  {
    LatchedStable(lib, st, bars, n, i);
    CountsStable(lib, st.conditions, bars, n, i);
  }

  lemma MarkersStable(lib: Library, st: Strategy, bars: seq<Bar>, n: nat, i: nat)
    requires Causal(lib) && i < n <= |bars|
    ensures BuyMarkerAt(lib, st, bars[..n], i) == BuyMarkerAt(lib, st, bars, i)
    ensures SellMarkerAt(lib, st, bars[..n], i) == SellMarkerAt(lib, st, bars, i)
  {
    assert bars[..n][i] == bars[i];
    BarStable(lib, st, bars, n, i);
    if i > 0 { BarStable(lib, st, bars, n, i - 1); }
  }

  /** Prefix stability: with causal indicators, evaluating the first `n` bars gives the first `n` states, scores
      and markers of the whole evaluation. */
  lemma PrefixStable(lib: Library, st: Strategy, bars: seq<Bar>, n: nat)
    requires Causal(lib) && n <= |bars|
    ensures var part, whole := Evaluated(lib, st, bars[..n]), Evaluated(lib, st, bars);
            && part.states == whole.states[..n] && part.scores == whole.scores[..n]
            && part.buyMarkers == whole.buyMarkers[..n] && part.sellMarkers == whole.sellMarkers[..n]
  {
    var part, whole := Evaluated(lib, st, bars[..n]), Evaluated(lib, st, bars);
    forall i | 0 <= i < n
      ensures part.states[i] == whole.states[i] && part.scores[i] == whole.scores[i]
      ensures part.buyMarkers[i] == whole.buyMarkers[i] && part.sellMarkers[i] == whole.sellMarkers[i]
    {
      BarStable(lib, st, bars, n, i);
      MarkersStable(lib, st, bars, n, i);
    }
  }

  // ---------------------------------------------------------------- what the conditions mean

  /** Of two finite sides exactly one of above, below and equal holds, and not-equal holds exactly when equal does
      not. */
  lemma OperatorsExclude(lib: Library, c: Condition, bars: seq<Bar>, i: nat)
    requires i < |bars| && Judged(lib, c, bars, i)
    ensures var above, below, equal := Met(lib, c.(operator := Above), bars, i),
                                       Met(lib, c.(operator := Below), bars, i),
                                       Met(lib, c.(operator := Equal), bars, i);
            && (above || below || equal) && !(above && below) && !(above && equal) && !(below && equal)
            && (Met(lib, c.(operator := NotEqual), bars, i) <==> !equal)
  {
  }

  /** A marker output is a flag: whether it is set can always be judged, and both "above 0" and "equal to 1" say that
      the indicator put a marker there; past its end there is none. */
  lemma MarkersAreFlags(lib: Library, source: Source, side: Side, bars: seq<Bar>, i: nat)
    requires i < |bars| && source.Indicator? && lib.marker(source)
    ensures var above, one := Condition(source, Above, Threshold(Finite(0.0)), side),
                              Condition(source, Equal, Threshold(Finite(1.0)), side);
            var marked := i < |lib.raw(source, bars)| && lib.raw(source, bars)[i].Finite?;
            && Judged(lib, above, bars, i) && Judged(lib, one, bars, i)
            && (Met(lib, above, bars, i) <==> marked) && (Met(lib, one, bars, i) <==> marked)
  {
  }

  /** The quote fields, from one bar to the next: the previous close is the last price one bar earlier, the change is
      their difference, in per cent of the previous close if that is not zero; the first bar has none of these. */
  lemma PricesFollow(bars: seq<Bar>, i: nat)
    requires i < |bars|
    ensures i == 0 ==>
              PriceAt(PrevClose, bars, i) == PriceAt(Change, bars, i) == PriceAt(ChangePct, bars, i) == NotFinite
    ensures i > 0 ==>
              var last, prev := PriceAt(Last, bars, i), PriceAt(Last, bars, i - 1);
              var change, pct := PriceAt(Change, bars, i), PriceAt(ChangePct, bars, i);
              && last.Finite? && prev.Finite? && PriceAt(PrevClose, bars, i) == prev
              && change == Finite(last.v - prev.v)
              && (pct.Finite? <==> prev.v != 0.0) && (prev.v != 0.0 ==> pct.v * prev.v == change.v * 100.0)
  {
    if i > 0 && bars[i - 1].close != 0.0 {
      var prev, change := bars[i - 1].close, bars[i].close - bars[i - 1].close;
      assert change / prev * prev == change;
    }
  }

  /** And within a bar: what a larger bar shows is the first open, the last price, the highest high, the lowest low and
      the total volume of the bars it sums up. */
  lemma PricesOfSummary(time: int, run: seq<Bar>, i: nat)
    requires i < |run|
    ensures var larger, n := [Summary(time, run)], |run| - 1;
            && PriceAt(Open, larger, 0) == PriceAt(Open, run, 0) && PriceAt(Last, larger, 0) == PriceAt(Last, run, n)
            && PriceAt(High, run, i).Finite? && PriceAt(High, larger, 0).Finite?
            && PriceAt(High, run, i).v <= PriceAt(High, larger, 0).v
            && PriceAt(Low, run, i).Finite? && PriceAt(Low, larger, 0).Finite?
            && PriceAt(Low, larger, 0).v <= PriceAt(Low, run, i).v
            && PriceAt(Volume, larger, 0) == Finite(VolumeOf(run))
  {
    var top, bottom := EnvelopeIsTight(run);
  }

  // ---- scores and thresholds

  /** The score is the whole number nearest to the share of judged conditions that are met, in per cent, halves
      rounded up; without a judged condition there is none. */
  lemma ScoreIsNearest(matches: nat, total: nat)
    ensures Score(matches, total).Finite? <==> total > 0
    ensures total > 0 ==>
              var share := matches as real / total as real * 100.0;
              share - 0.5 < Score(matches, total).v <= share + 0.5
              && Score(matches, total).v.Floor as real == Score(matches, total).v
  {
  }

  /** A threshold is kept within 0 to 100; one that is not a number is replaced. */
  lemma ThresholdMeaning(value: Num, fallback: real)
    ensures var t := ClampThreshold(value, fallback);
            && (!value.Finite? ==> t == fallback)
            && (value.Finite? ==> 0.0 <= t <= 100.0)
            && (value.Finite? && 0.0 <= value.v <= 100.0 ==> t == value.v)
            && (value.Finite? && value.v < 0.0 ==> t == 0.0) && (value.Finite? && value.v > 100.0 ==> t == 100.0)
  {
  }

  /** Thresholds that are not numbers stand for 70 and 30. */
  lemma DefaultThresholds(lib: Library, st: Strategy, bars: seq<Bar>)
    ensures var st' := st.(buyThreshold := Finite(70.0), sellThreshold := Finite(30.0));
            Evaluated(lib, st.(buyThreshold := NotFinite, sellThreshold := NotFinite), bars)
            == Evaluated(lib, st', bars)
  {
    var bare, st' := st.(buyThreshold := NotFinite, sellThreshold := NotFinite),
                     st.(buyThreshold := Finite(70.0), sellThreshold := Finite(30.0));
    forall i | 0 <= i < |bars|
      ensures ScoreAt(lib, bare, bars, i) == ScoreAt(lib, st', bars, i)
      ensures StateAt(lib, bare, bars, i) == StateAt(lib, st', bars, i)
    {
      LatchIgnoresThresholds(lib, bare, st', bars, i);
    }
    var e, e' := Evaluated(lib, bare, bars), Evaluated(lib, st', bars);
    assert e.scores == e'.scores && e.states == e'.states;
    assert e.buyMarkers == e'.buyMarkers && e.sellMarkers == e'.sellMarkers;
  }

  lemma {:induction false} LatchIgnoresThresholds(lib: Library, st: Strategy, st': Strategy, bars: seq<Bar>, i: nat)
    requires i < |bars| && st.conditions == st'.conditions
    ensures LatchedAt(lib, st, bars, i) == LatchedAt(lib, st', bars, i)
  {
    if i > 0 { LatchIgnoresThresholds(lib, st, st', bars, i - 1); }
  }

  /** The latest score is the last one there is. */
  lemma {:induction false} LatestScoreIsLast(scores: seq<Num>, i: nat)
    requires i < |scores| && forall j :: i < j < |scores| ==> !scores[j].Finite?
    ensures LastFinite(scores) == if scores[i].Finite? then scores[i] else LastFinite(scores[..i])
    decreases |scores|
  {
    if i < |scores| - 1 {
      var n := |scores| - 1;
      LatestScoreIsLast(scores[..n], i);
      assert scores[..n][..i] == scores[..i];
    }
  }

  lemma {:induction false} NoLatestScore(scores: seq<Num>)
    ensures LastFinite(scores) == NotFinite <==> forall i :: 0 <= i < |scores| ==> !scores[i].Finite?
  {
    if scores != [] { NoLatestScore(scores[..|scores| - 1]); }
  }

  function Mirrored(operator: Operator): Operator {
    match operator case Above => Below case Below => Above case Equal => Equal case NotEqual => NotEqual
  }

  /** The same condition, or the same read from the other side: `r below l` for `l above r`. */
  predicate Mirrors(c: Condition, d: Condition) {
    c == d ||
    (c.target.Other? && d == Condition(c.target.source, Mirrored(c.operator), Other(c.left), c.side))
  }

  predicate AllMirror(cs: seq<Condition>, ds: seq<Condition>) {
    |cs| == |ds| && forall n :: 0 <= n < |cs| ==> Mirrors(cs[n], ds[n])
  }

  lemma MirrorIsMet(lib: Library, c: Condition, d: Condition, bars: seq<Bar>, i: nat)
    requires i < |bars| && Mirrors(c, d)
    ensures Judged(lib, c, bars, i) == Judged(lib, d, bars, i) && Met(lib, c, bars, i) == Met(lib, d, bars, i)
  {
  }

  lemma {:induction false} MirrorCounts(lib: Library, cs: seq<Condition>, ds: seq<Condition>, bars: seq<Bar>, i: nat)
    requires i < |bars| && AllMirror(cs, ds)
    ensures CountJudged(lib, cs, bars, i) == CountJudged(lib, ds, bars, i)
    ensures CountMet(lib, cs, bars, i) == CountMet(lib, ds, bars, i)
  {
    if cs != [] {
      var n := |cs| - 1;
      MirrorCounts(lib, cs[..n], ds[..n], bars, i);
      MirrorIsMet(lib, cs[n], ds[n], bars, i);
    }
  }

  lemma MirrorFires(lib: Library, cs: seq<Condition>, ds: seq<Condition>, side: Side, bars: seq<Bar>, i: nat)
    requires i < |bars| && AllMirror(cs, ds) && Fires(lib, cs, side, bars, i)
    ensures Fires(lib, ds, side, bars, i)
  {
    var c :| c in cs && c.side == side && Met(lib, c, bars, i);
    var n :| 0 <= n < |cs| && cs[n] == c;
    MirrorIsMet(lib, c, ds[n], bars, i);
    assert ds[n] in ds;
  }

  lemma MirrorBack(cs: seq<Condition>, ds: seq<Condition>)
    requires AllMirror(cs, ds)
    ensures AllMirror(ds, cs)
  {
    forall n | 0 <= n < |ds| ensures Mirrors(ds[n], cs[n]) { assert Mirrors(cs[n], ds[n]); }
  }

  lemma {:induction false} MirrorLatches(lib: Library, st: Strategy, ds: seq<Condition>, bars: seq<Bar>, i: nat)
    requires i < |bars| && AllMirror(st.conditions, ds)
    ensures LatchedAt(lib, st.(conditions := ds), bars, i) == LatchedAt(lib, st, bars, i)
  {
    MirrorBack(st.conditions, ds);
    forall side ensures Fires(lib, st.conditions, side, bars, i) <==> Fires(lib, ds, side, bars, i) {
      if Fires(lib, st.conditions, side, bars, i) { MirrorFires(lib, st.conditions, ds, side, bars, i); }
      if Fires(lib, ds, side, bars, i) { MirrorFires(lib, ds, st.conditions, side, bars, i); }
    }
    if i > 0 { MirrorLatches(lib, st, ds, bars, i - 1); }
  }

  lemma MirrorBar(lib: Library, st: Strategy, ds: seq<Condition>, bars: seq<Bar>, i: nat)
    requires i < |bars| && AllMirror(st.conditions, ds)
    ensures ScoreAt(lib, st.(conditions := ds), bars, i) == ScoreAt(lib, st, bars, i)
    ensures StateAt(lib, st.(conditions := ds), bars, i) == StateAt(lib, st, bars, i)
  {
    MirrorLatches(lib, st, ds, bars, i);
    MirrorCounts(lib, st.conditions, ds, bars, i);
  }

  /** Writing conditions from the other side changes nothing of an evaluation, in either mode. */
  lemma MirrorEvaluates(lib: Library, st: Strategy, ds: seq<Condition>, bars: seq<Bar>)
    requires AllMirror(st.conditions, ds)
    ensures Evaluated(lib, st.(conditions := ds), bars) == Evaluated(lib, st, bars)
  {
    var st' := st.(conditions := ds);
    forall i | 0 <= i < |bars|
      ensures ScoreAt(lib, st', bars, i) == ScoreAt(lib, st, bars, i)
      ensures StateAt(lib, st', bars, i) == StateAt(lib, st, bars, i)
    {
      MirrorBar(lib, st, ds, bars, i);
    }
    var e, e' := Evaluated(lib, st, bars), Evaluated(lib, st', bars);
    assert e.scores == e'.scores && e.states == e'.states;
    assert e.buyMarkers == e'.buyMarkers && e.sellMarkers == e'.sellMarkers;
  }

  // ---------------------------------------------------------------- the latch

  /** In signal mode the state at bar `i` is the side of the last bar up to `i` at which exactly one side fired. */
  lemma {:induction false} StateIsLastSignal(lib: Library, st: Strategy, bars: seq<Bar>, i: nat)
    requires st.signal && i < |bars|
    ensures StateAt(lib, st, bars, i) == Neutral ==> forall j :: 0 <= j <= i ==> FiredAlone(lib, st, bars, j) == Neutral
    ensures StateAt(lib, st, bars, i) != Neutral ==>
              exists j :: 0 <= j <= i && FiredAlone(lib, st, bars, j) == StateAt(lib, st, bars, i)
                          && forall k :: j < k <= i ==> FiredAlone(lib, st, bars, k) == Neutral
  {
    if FiredAlone(lib, st, bars, i) == Neutral && i > 0 {
      StateIsLastSignal(lib, st, bars, i - 1);
    }
  }

  /** Once a side has fired, the latch never falls back to neutral. */
  lemma {:induction false} LatchHolds(lib: Library, st: Strategy, bars: seq<Bar>, i: nat, j: nat)
    requires st.signal && i <= j < |bars| && StateAt(lib, st, bars, i) != Neutral
    ensures StateAt(lib, st, bars, j) != Neutral
  {
    if i < j { LatchHolds(lib, st, bars, i, j - 1); }
  }

  /** In signal mode the latest state is the state of the last bar. */
  lemma LatestStateIsLast(lib: Library, st: Strategy, bars: seq<Bar>)
    requires st.signal && bars != []
    ensures Evaluated(lib, st, bars).latestState == StateAt(lib, st, bars, |bars| - 1)
  {
    var states := Evaluated(lib, st, bars).states;
    if StateAt(lib, st, bars, |bars| - 1) == Neutral {
      forall i | 0 <= i < |states| ensures states[i] == Neutral {
        if states[i] != Neutral { LatchHolds(lib, st, bars, i, |bars| - 1); }
      }
      AllNeutral(states);
    }
  }

  lemma {:induction false} AllNeutral(states: seq<State>)
    requires forall i :: 0 <= i < |states| ==> states[i] == Neutral
    ensures LastNotNeutral(states) == Neutral
  {
    if states != [] { AllNeutral(states[..|states| - 1]); }
  }

  // ---------------------------------------------------------------- do the markers alternate?

  function StateOf(side: Side): State { if side == BuySide then Buy else Sell }

  function Opposite(side: Side): Side { if side == BuySide then SellSide else BuySide }

  /** The state turns to this side at bar `i`. */
  predicate TurnsTo(states: seq<State>, side: Side, i: nat) {
    0 < i < |states| && states[i] == StateOf(side) && states[i - 1] != StateOf(side)
  }

  /** The markers of an evaluation are its turns, drawn at the low or the high of the bar. */
  lemma MarkersAreTurns(lib: Library, st: Strategy, bars: seq<Bar>, i: nat)
    requires i < |bars|
    ensures var e := Evaluated(lib, st, bars);
            && |e.states| == |e.buyMarkers| == |e.sellMarkers| == |bars|
            && e.buyMarkers[i] == (if TurnsTo(e.states, BuySide, i) then Finite(bars[i].low) else NotFinite)
            && e.sellMarkers[i] == (if TurnsTo(e.states, SellSide, i) then Finite(bars[i].high) else NotFinite)
  {
  }

  /** On the way from a bar that is not in the state of a side to one that is, the state turns to it. */
  lemma {:induction false} FirstTurn(states: seq<State>, side: Side, i: nat, k: nat) returns (m: nat)
    requires i < k < |states| && states[i] != StateOf(side) && states[k] == StateOf(side)
    ensures i < m <= k && TurnsTo(states, side, m)
    decreases k - i
  {
    if states[i + 1] == StateOf(side) {
      m := i + 1;
    } else {
      m := FirstTurn(states, side, i + 1, k);
    }
  }

  /** Between two markers of one side lies a marker of the other if and only if some bar between them has the other
      state: for all series of states, so in both modes. */
  lemma OppositeBetweenIffState(states: seq<State>, side: Side, i: nat, j: nat)
    requires i < j && TurnsTo(states, side, i) && TurnsTo(states, side, j)
    ensures (exists k :: i < k < j && TurnsTo(states, Opposite(side), k))
            <==> (exists k :: i < k < j && states[k] == StateOf(Opposite(side)))
  {
    if k :| i < k < j && states[k] == StateOf(Opposite(side)) {
      var m := FirstTurn(states, Opposite(side), i, k);
    }
  }

  /** Between any two turns to this side lies one to the other. */
  ghost predicate TurnsAlternate(states: seq<State>, side: Side) {
    forall i, j :: 0 <= i < j && TurnsTo(states, side, i) && TurnsTo(states, side, j) ==>
      exists k :: i < k < j && TurnsTo(states, Opposite(side), k)
  }

  /** Once the state has left neutral it never returns. */
  predicate NeverNeutralAgain(states: seq<State>) {
    forall i :: 0 < i < |states| && states[i - 1] != Neutral ==> states[i] != Neutral
  }

  /** From the state of one side to a later bar that is not in it, the state turns to the other side. */
  lemma {:induction false} Leaving(states: seq<State>, side: Side, i: nat, j: nat) returns (k: nat)
    requires i < j < |states| && states[i] == StateOf(side) && states[j] != StateOf(side) && NeverNeutralAgain(states)
    ensures i < k <= j && TurnsTo(states, Opposite(side), k)
    decreases j - i
  {
    if states[i + 1] != StateOf(side) {
      assert states[i + 1 - 1] != Neutral;
      k := i + 1;
    } else {
      k := Leaving(states, side, i + 1, j);
    }
  }

  lemma NeverNeutralAlternates(states: seq<State>, side: Side)
    requires NeverNeutralAgain(states)
    ensures TurnsAlternate(states, side)
  {
    forall i, j | 0 <= i < j && TurnsTo(states, side, i) && TurnsTo(states, side, j)
      ensures exists k :: i < k < j && TurnsTo(states, Opposite(side), k)
    {
      var k := Leaving(states, side, i, j - 1);
    }
  }

  /** Between any two markers of this side lies one of the other. */
  ghost predicate Alternates(lib: Library, st: Strategy, bars: seq<Bar>, side: Side) {
    TurnsAlternate(Evaluated(lib, st, bars).states, side)
  }

  /** In signal mode the markers of every strategy alternate. */
  lemma MarkersAlternate(lib: Library, st: Strategy, bars: seq<Bar>, side: Side)
    requires st.signal
    ensures Alternates(lib, st, bars, side)
  {
    var states := Evaluated(lib, st, bars).states;
    forall i | 0 < i < |states| && states[i - 1] != Neutral ensures states[i] != Neutral {
      LatchHolds(lib, st, bars, i - 1, i);
    }
    NeverNeutralAlternates(states, side);
  }

  // ---- score mode

  /** The thresholds leave no neutral score: whatever number of the `n` conditions is judged and whatever number of
      those is met, the score buys or sells. */
  predicate Decisive(n: nat, buy: real, sell: real) {
    forall total, matches :: 1 <= total <= n && 0 <= matches <= total ==>
      DeriveState(Score(matches, total), buy, sell) != Neutral
  }

  /** After the warm-up of the indicators there is always a condition to judge: once one is judged, the next bar has
      one too. */
  predicate JudgedOnceStarted(lib: Library, st: Strategy, bars: seq<Bar>) {
    forall i :: 0 < i < |bars| && CountJudged(lib, st.conditions, bars, i - 1) > 0 ==>
      CountJudged(lib, st.conditions, bars, i) > 0
  }

  lemma {:induction false} MetAreJudged(lib: Library, conditions: seq<Condition>, bars: seq<Bar>, i: nat)
    requires i < |bars|
    ensures CountMet(lib, conditions, bars, i) <= CountJudged(lib, conditions, bars, i) <= |conditions|
  {
    if conditions != [] { MetAreJudged(lib, conditions[..|conditions| - 1], bars, i); }
  }

  lemma DecisiveAlternates(lib: Library, st: Strategy, bars: seq<Bar>, side: Side)
    requires !st.signal && JudgedOnceStarted(lib, st, bars)
    requires Decisive(|st.conditions|, ClampThreshold(st.buyThreshold, 70.0), ClampThreshold(st.sellThreshold, 30.0))
    ensures Alternates(lib, st, bars, side)
  {
    var states := Evaluated(lib, st, bars).states;
    forall i | 0 < i < |states| && states[i - 1] != Neutral ensures states[i] != Neutral {
      assert CountJudged(lib, st.conditions, bars, i - 1) > 0;
      MetAreJudged(lib, st.conditions, bars, i);
    }
    NeverNeutralAlternates(states, side);
  }

  predicate IsScoreMode(st: Strategy, n: nat, buyThreshold: Num, sellThreshold: Num) {
    !st.signal && |st.conditions| == n && st.buyThreshold == buyThreshold && st.sellThreshold == sellThreshold
  }

  /** What the score mode promises for this many conditions and these thresholds, whatever they are and whatever the
      market does, as long as judging does not lapse. */
  ghost predicate AlwaysAlternates(n: nat, buyThreshold: Num, sellThreshold: Num, side: Side) {
    forall lib: Library, st: Strategy, bars: seq<Bar> ::
      IsScoreMode(st, n, buyThreshold, sellThreshold) && JudgedOnceStarted(lib, st, bars) ==>
        Alternates(lib, st, bars, side)
  }

  /** `matches` conditions that a close of 5 meets, others up to `total` that only a higher one does, the rest never
      judged. */
  function CloseAbove(n: nat, total: nat, matches: nat): seq<Condition> {
    if n == 0 then [] else
    var limit := if n - 1 < matches then Finite(0.0) else if n - 1 < total then Finite(10.0) else NotFinite;
    CloseAbove(n - 1, total, matches) + [Condition(Quote(Last), Above, Threshold(limit), BuySide)]
  }

  lemma {:induction false} CloseAboveCounts(lib: Library, n: nat, total: nat, matches: nat, bars: seq<Bar>, i: nat)
    requires i < |bars| && matches <= total && bars[i].close in {0.0, 5.0, 20.0}
    ensures var cs := CloseAbove(n, total, matches);
            && |cs| == n && CountJudged(lib, cs, bars, i) == (if n < total then n else total)
            && CountMet(lib, cs, bars, i) ==
               var m := if bars[i].close == 0.0 then 0 else if bars[i].close == 5.0 then matches else total;
               if n < m then n else m
  {
    if n > 0 {
      CloseAboveCounts(lib, n - 1, total, matches, bars, i);
      assert CloseAbove(n, total, matches)[..n - 1] == CloseAbove(n - 1, total, matches);
    }
  }

  /** The close that meets all those conditions, or none. */
  function CloseFor(side: Side): real { if side == BuySide then 20.0 else 0.0 }

  /** These conditions, with a neutral attainable score: a close of 5 is neutral, the extreme closes are not. */
  predicate HasNeutralScore(st: Strategy, total: nat, matches: nat) {
    && !st.signal && 1 <= total <= |st.conditions| && matches <= total
    && st.conditions == CloseAbove(|st.conditions|, total, matches)
    && DeriveState(Score(matches, total), ClampThreshold(st.buyThreshold, 70.0), ClampThreshold(st.sellThreshold, 30.0))
       == Neutral
  }

  lemma CloseDecides(lib: Library, st: Strategy, total: nat, matches: nat, bars: seq<Bar>, i: nat, side: Side)
    requires HasNeutralScore(st, total, matches) && i < |bars| && bars[i].close in {5.0, CloseFor(side)}
    ensures CountJudged(lib, st.conditions, bars, i) > 0
    ensures StateAt(lib, st, bars, i) == if bars[i].close == 5.0 then Neutral else StateOf(side)
  {
    CloseAboveCounts(lib, |st.conditions|, total, matches, bars, i);
    NeutralIsPositive(matches, total, ClampThreshold(st.buyThreshold, 70.0), ClampThreshold(st.sellThreshold, 30.0));
  }

  /** If some attainable score is neutral, four bars give two markers of either side with none between. */
  lemma NeutralScoreBreaks(lib: Library, st: Strategy, total: nat, matches: nat, neutral: Bar, turn: Bar, side: Side)
    requires HasNeutralScore(st, total, matches) && neutral.close == 5.0 && turn.close == CloseFor(side)
    ensures var bars := [neutral, turn, neutral, turn];
            JudgedOnceStarted(lib, st, bars) && !Alternates(lib, st, bars, side)
  {
    var bars := [neutral, turn, neutral, turn];
    forall i | 0 <= i < 4
      ensures CountJudged(lib, st.conditions, bars, i) > 0
      ensures StateAt(lib, st, bars, i) == if i % 2 == 0 then Neutral else StateOf(side)
    {
      assert bars[i] == if i % 2 == 0 then neutral else turn;
      CloseDecides(lib, st, total, matches, bars, i, side);
    }
    TurnsFromNeutral(Evaluated(lib, st, bars).states, side);
  }

  /** Twice out of neutral to the same side. */
  lemma TurnsFromNeutral(states: seq<State>, side: Side)
    requires |states| == 4 && forall i :: 0 <= i < 4 ==> states[i] == if i % 2 == 0 then Neutral else StateOf(side)
    ensures !TurnsAlternate(states, side)
  {
    assert TurnsTo(states, side, 1) && TurnsTo(states, side, 3);
    assert forall k :: 1 < k < 3 ==> !TurnsTo(states, Opposite(side), k);
  }

  lemma ExtremeScores(total: nat)
    requires total >= 1
    ensures Score(total, total) == Finite(100.0) && Score(0, total) == Finite(0.0)
  {
    assert total as real / total as real == 1.0;
    assert 0 as real / total as real == 0.0;
    assert 1.0 * 100.0 + 0.5 == 100.5 && 0.0 * 100.0 + 0.5 == 0.5;
  }

  lemma ScoreNotNegative(matches: nat, total: nat)
    requires total >= 1
    ensures Score(matches, total).v >= 0.0
  {
    var share := matches as real / total as real;
    assert share * total as real == matches as real;
    assert share >= 0.0;
  }

  /** A neutral score leaves room on both sides: full marks buy and none sell. */
  lemma NeutralIsPositive(matches: nat, total: nat, buy: real, sell: real)
    requires total >= 1 && 0.0 <= sell && buy <= 100.0 && DeriveState(Score(matches, total), buy, sell) == Neutral
    ensures DeriveState(Score(total, total), buy, sell) == Buy && DeriveState(Score(0, total), buy, sell) == Sell
  {
    ScoreNotNegative(matches, total);
    ExtremeScores(total);
  }

  /** A strategy and a market that break it. */
  lemma NotDecisiveBreaks(n: nat, buyThreshold: Num, sellThreshold: Num, total: nat, matches: nat, side: Side)
    requires 1 <= total <= n && matches <= total
    requires DeriveState(Score(matches, total), ClampThreshold(buyThreshold, 70.0), ClampThreshold(sellThreshold, 30.0))
             == Neutral
    ensures !AlwaysAlternates(n, buyThreshold, sellThreshold, side)
  {
    var lib, st := GappyLibrary(0.0), Strategy(CloseAbove(n, total, matches), buyThreshold, sellThreshold, false);
    var c := CloseFor(side);
    var neutral, turn := Bar(0, 5.0, 5.0, 5.0, 5.0, 0.0), Bar(0, c, c, c, c, 0.0);
    CloseAboveCounts(lib, n, total, matches, [neutral], 0);
    NeutralScoreBreaks(lib, st, total, matches, neutral, turn, side);
    assert IsScoreMode(st, n, buyThreshold, sellThreshold);
  }

  /** The exact condition, readable off the strategy before any evaluation: where judging does not lapse, score mode
      keeps the markers alternating, for every choice of that many conditions, if and only if no attainable score
      lies strictly between the thresholds. It is the same for both sides. */
  lemma AlternatesIffDecisive(n: nat, buyThreshold: Num, sellThreshold: Num, side: Side)
    ensures AlwaysAlternates(n, buyThreshold, sellThreshold, side)
            <==> Decisive(n, ClampThreshold(buyThreshold, 70.0), ClampThreshold(sellThreshold, 30.0))
  {
    var buy, sell := ClampThreshold(buyThreshold, 70.0), ClampThreshold(sellThreshold, 30.0);
    if Decisive(n, buy, sell) {
      forall lib: Library, st: Strategy, bars: seq<Bar>
        | IsScoreMode(st, n, buyThreshold, sellThreshold) && JudgedOnceStarted(lib, st, bars)
        ensures Alternates(lib, st, bars, side)
      {
        DecisiveAlternates(lib, st, bars, side);
      }
    } else {
      var total, matches :| 1 <= total <= n && 0 <= matches <= total
                            && DeriveState(Score(matches, total), buy, sell) == Neutral;
      NotDecisiveBreaks(n, buyThreshold, sellThreshold, total, matches, side);
    }
  }

  /** One condition of two met is a neutral score under the default thresholds. */
  lemma DefaultsDecisive(n: nat)
    ensures Decisive(n, 70.0, 30.0) <==> n <= 1
  {
    ExtremeScores(1);
    assert 1 as real / 2 as real * 100.0 + 0.5 == 50.5;
    assert DeriveState(Score(1, 2), 70.0, 30.0) == Neutral;
  }

  /** With the default thresholds that is: exactly for strategies of at most one condition. */
  lemma DefaultsAlternateIffOneCondition(n: nat, side: Side)
    ensures AlwaysAlternates(n, Finite(70.0), Finite(30.0), side) <==> n <= 1
  {
    AlternatesIffDecisive(n, Finite(70.0), Finite(30.0), side);
    DefaultsDecisive(n);
  }

  // ---- score mode, when judging may lapse

  /** The same with nothing assumed of the market. */
  ghost predicate AlternatesAnyway(n: nat, buyThreshold: Num, sellThreshold: Num, side: Side) {
    forall lib: Library, st: Strategy, bars: seq<Bar> ::
      IsScoreMode(st, n, buyThreshold, sellThreshold) ==> Alternates(lib, st, bars, side)
  }

  /** `n` times the condition that an indicator is positive. */
  function PositiveIndicator(n: nat): seq<Condition> {
    if n == 0 then [] else
    PositiveIndicator(n - 1) + [IndicatorPositive()]
  }

  /** Whose output has gaps. */
  function GappyLibrary(value: real): Library {
    Library((source, bars) => [NotFinite, Finite(value), NotFinite, Finite(value)], source => false)
  }

  function IndicatorPositive(): Condition {
    Condition(Indicator("", map[], ""), Above, Threshold(Finite(0.0)), BuySide)
  }

  lemma GappyCondition(value: real, bars: seq<Bar>, i: nat)
    requires |bars| == 4 && i < 4
    ensures Judged(GappyLibrary(value), IndicatorPositive(), bars, i) <==> i % 2 == 1
    ensures Met(GappyLibrary(value), IndicatorPositive(), bars, i) <==> i % 2 == 1 && value > 0.0
  {
    var series: seq<Num> := [NotFinite, Finite(value), NotFinite, Finite(value)];
    assert GappyLibrary(value).raw(IndicatorPositive().left, bars) == series;
    assert ValueAt(GappyLibrary(value), IndicatorPositive().left, bars, i) == series[i];
  }

  lemma {:induction false} GappyCounts(n: nat, value: real, bars: seq<Bar>, i: nat)
    requires |bars| == 4 && i < 4
    ensures var lib, cs := GappyLibrary(value), PositiveIndicator(n);
            && |cs| == n && CountJudged(lib, cs, bars, i) == (if i % 2 == 1 then n else 0)
            && CountMet(lib, cs, bars, i) == if i % 2 == 1 && value > 0.0 then n else 0
  {
    if n > 0 {
      GappyCounts(n - 1, value, bars, i);
      GappyCondition(value, bars, i);
      var cs := PositiveIndicator(n);
      assert |cs| == n && cs[..n - 1] == PositiveIndicator(n - 1) && cs[n - 1] == IndicatorPositive();
    }
  }

  /** The indicator at this value takes every judged bar to this side. */
  function ValueFor(side: Side): real { if side == BuySide then 1.0 else 0.0 }

  /** A gap in the only indicator resets the state to neutral. */
  lemma GappyState(st: Strategy, bars: seq<Bar>, i: nat, side: Side)
    requires !st.signal && st.conditions == PositiveIndicator(|st.conditions|) && |st.conditions| >= 1
    requires side == BuySide || ClampThreshold(st.buyThreshold, 70.0) > 0.0
    requires |bars| == 4 && i < 4
    ensures StateAt(GappyLibrary(ValueFor(side)), st, bars, i) == if i % 2 == 0 then Neutral else StateOf(side)
  {
    ExtremeScores(|st.conditions|);
    GappyCounts(|st.conditions|, ValueFor(side), bars, i);
  }

  /** Four bars on which the only indicator lapses twice. */
  lemma GappyBreaks(st: Strategy, bars: seq<Bar>, side: Side)
    requires !st.signal && st.conditions == PositiveIndicator(|st.conditions|) && |st.conditions| >= 1
    requires side == BuySide || ClampThreshold(st.buyThreshold, 70.0) > 0.0
    requires |bars| == 4
    ensures !Alternates(GappyLibrary(ValueFor(side)), st, bars, side)
  {
    var states := Evaluated(GappyLibrary(ValueFor(side)), st, bars).states;
    forall i | 0 <= i < 4 ensures states[i] == if i % 2 == 0 then Neutral else StateOf(side) {
      GappyState(st, bars, i, side);
    }
    TurnsFromNeutral(states, side);
  }

  /** So nothing is promised of a market in which judging may lapse. */
  lemma LapseBreaks(n: nat, buyThreshold: Num, sellThreshold: Num, side: Side)
    requires n >= 1 && (side == BuySide || ClampThreshold(buyThreshold, 70.0) > 0.0)
    ensures !AlternatesAnyway(n, buyThreshold, sellThreshold, side)
  {
    var st := Strategy(PositiveIndicator(n), buyThreshold, sellThreshold, false);
    var b := Bar(0, 1.0, 1.0, 1.0, 1.0, 0.0);
    GappyCounts(n, ValueFor(side), [b, b, b, b], 0);
    GappyBreaks(st, [b, b, b, b], side);
    assert IsScoreMode(st, n, buyThreshold, sellThreshold);
  }

  /** A side that no bar ever takes has no markers. */
  lemma NeverTakenAlternates(states: seq<State>, side: Side)
    requires forall i :: 0 <= i < |states| ==> states[i] != StateOf(side)
    ensures TurnsAlternate(states, side)
  {
  }

  /** With nothing assumed of the market, only a strategy that cannot take the side at all keeps its markers
      alternating: one without conditions, and for SELL one that always buys because its threshold is zero. */
  lemma AlternatesAnywayIff(n: nat, buyThreshold: Num, sellThreshold: Num, side: Side)
    ensures AlternatesAnyway(n, buyThreshold, sellThreshold, side)
            <==> n == 0 || (side == SellSide && ClampThreshold(buyThreshold, 70.0) == 0.0)
  {
    if n == 0 || (side == SellSide && ClampThreshold(buyThreshold, 70.0) == 0.0) {
      forall lib: Library, st: Strategy, bars: seq<Bar> | IsScoreMode(st, n, buyThreshold, sellThreshold)
        ensures Alternates(lib, st, bars, side)
      {
        var states := Evaluated(lib, st, bars).states;
        forall i | 0 <= i < |states| ensures states[i] != StateOf(side) {
          var matches, total := CountMet(lib, st.conditions, bars, i), CountJudged(lib, st.conditions, bars, i);
          MetAreJudged(lib, st.conditions, bars, i);
          if total > 0 { ScoreNotNegative(matches, total); }
        }
        NeverTakenAlternates(states, side);
      }
    } else {
      LapseBreaks(n, buyThreshold, sellThreshold, side);
    }
  }
}
