/**
 * The signal scorer of app.py: the per-coin analysis (analyze_coin), the
 * signal panel of the selected coin, and the collection of coins whose
 * score reaches the maximum.  Fetched OHLC data arrives as an input; an
 * empty list stands for a failed fetch.
 */
module Signals {
  import opened Wrappers
  import opened Indicators

  /** One OHLC row as the price feed returns it: [timestamp, open, high, low, close]. */
  datatype Candle = Candle(timestamp: int, open: real, high: real, low: real, close: real)

  /** The record analyze_coin returns for a coin with enough data. */
  datatype Analysis = Analysis(coinId: string, rsi: real, emaShort: real, emaLong: real,
                               price: real, score: nat)

  /** The closing prices, `item[4]` of every row. */
  function Closes(data: seq<Candle>): seq<real>
  {
    seq(|data|, i requires 0 <= i < |data| => data[i].close)
  }

  function Last(xs: seq<real>): real
    requires |xs| > 0
  {
    xs[|xs| - 1]
  }

  /** One point for each bullish condition that holds. */
  function ScoreOf(oversold: bool, trendUp: bool, aboveEma: bool): (score: nat)
    ensures score <= 3
    ensures score == 3 <==> oversold && trendUp && aboveEma
    ensures score == 0 <==> !oversold && !trendUp && !aboveEma
  {
    (if oversold then 1 else 0) + (if trendUp then 1 else 0) + (if aboveEma then 1 else 0)
  }

  /** The bullish score: RSI below 30, short EMA above long EMA, price above short EMA. */
  function Score(rsi: real, emaShort: real, emaLong: real, price: real): (score: nat)
    ensures score <= 3
    ensures score == 3 <==> rsi < 30.0 && emaShort > emaLong && price > emaShort
  {
    ScoreOf(rsi < 30.0, emaShort > emaLong, price > emaShort)
  }

  /** Turning any one condition on, the others fixed, adds exactly one point. */
  lemma ScoreMonotone(a: bool, b: bool, c: bool)
    ensures ScoreOf(true, b, c) == ScoreOf(false, b, c) + 1
    ensures ScoreOf(a, true, c) == ScoreOf(a, false, c) + 1
    ensures ScoreOf(a, b, true) == ScoreOf(a, b, false) + 1
  {
  }

  /** What analyze_coin returns for the fetched rows `data`. */
  function Analyze(coinId: string, data: seq<Candle>): Option<Analysis>
  {
    if |data| == 0 || |data| < RSI_PERIOD then None
    else
      var closes := Closes(data);
      var rsi := RsiSpec(closes);
      var emaShort := Last(EmaSpec(closes, EMA_SHORT));
      var emaLong := Last(EmaSpec(closes, EMA_LONG));
      var price := Last(closes);
      Some(Analysis(coinId, rsi, emaShort, emaLong, price, Score(rsi, emaShort, emaLong, price)))
  }

  /** analyze_coin: skip short data, otherwise compute the indicators and count the signals. */
  method AnalyzeCoin(coinId: string, data: seq<Candle>) returns (analysis: Option<Analysis>)
    ensures analysis == Analyze(coinId, data)
  {
    if |data| == 0 || |data| < RSI_PERIOD {
      return None;
    }
    var closes := Closes(data);
    var rsi := CalculateRsi(closes);
    var emaShort := CalculateEma(closes, EMA_SHORT);
    var emaLong := CalculateEma(closes, EMA_LONG);

    var score := 0;
    if rsi < 30.0 {
      score := score + 1;
    }
    if emaShort[|emaShort| - 1] > emaLong[|emaLong| - 1] {
      score := score + 1;
    }
    if closes[|closes| - 1] > emaShort[|emaShort| - 1] {
      score := score + 1;
    }
    analysis := Some(Analysis(coinId, rsi, emaShort[|emaShort| - 1], emaLong[|emaLong| - 1],
                              closes[|closes| - 1], score));
  }

  /**
   * analyze_coin skips exactly the coins with fewer than RSI_PERIOD rows;
   * otherwise the record carries the last close, the last EMA values, an RSI
   * in [0, 100] and a score of at most 3 that is 3 exactly when all three
   * conditions hold.
   */
  lemma AnalysisContract(coinId: string, data: seq<Candle>)
    ensures Analyze(coinId, data).None? <==> |data| < RSI_PERIOD
    ensures Analyze(coinId, data).Some? ==>
      var a := Analyze(coinId, data).value;
      var closes := Closes(data);
      |closes| >= RSI_PERIOD &&
      a.coinId == coinId &&
      a.price == data[|data| - 1].close &&
      a.emaShort == EmaSpec(closes, EMA_SHORT)[|data| - 1] &&
      a.emaLong == EmaSpec(closes, EMA_LONG)[|data| - 1] &&
      a.rsi == RsiSpec(closes) && 0.0 <= a.rsi <= 100.0 &&
      a.score <= 3 &&
      (a.score == 3 <==> a.rsi < 30.0 && a.emaShort > a.emaLong && a.price > a.emaShort)
  {
    if |data| >= RSI_PERIOD {
      RsiInRange(Closes(data));
    }
  }

  // ---------------------------------------------------------------------
  // The selected coin's panel
  // ---------------------------------------------------------------------

  /** What the panel of the selected coin shows: current price, RSI, both EMA series, score. */
  datatype Panel = Panel(price: real, rsi: real, emaShort: seq<real>, emaLong: seq<real>, score: nat)

  function PanelView(data: seq<Candle>): Option<Panel>
  {
    if |data| == 0 then None
    else
      var prices := Closes(data);
      var rsi := RsiSpec(prices);
      var emaShort := EmaSpec(prices, EMA_SHORT);
      var emaLong := EmaSpec(prices, EMA_LONG);
      Some(Panel(Last(prices), rsi, emaShort, emaLong, Score(rsi, Last(emaShort), Last(emaLong), Last(prices))))
  }

  /** The selected-coin panel: no guard but "data is non-empty", then the same three tests. */
  method SelectedCoinPanel(data: seq<Candle>) returns (panel: Option<Panel>)
    ensures panel == PanelView(data)
  {
    if |data| == 0 {
      return None;
    }
    var prices := Closes(data);
    var rsi := CalculateRsi(prices);
    var emaShort := CalculateEma(prices, EMA_SHORT);
    var emaLong := CalculateEma(prices, EMA_LONG);

    var score := 0;
    if rsi < 30.0 {
      score := score + 1;
    }
    if emaShort[|emaShort| - 1] > emaLong[|emaLong| - 1] {
      score := score + 1;
    }
    if prices[|prices| - 1] > emaShort[|emaShort| - 1] {
      score := score + 1;
    }
    panel := Some(Panel(prices[|prices| - 1], rsi, emaShort, emaLong, score));
  }

  /**
   * The panel appears for any non-empty data, with one EMA value per close
   * seeded by the first close; once the data is long enough for
   * analyze_coin, the panel and the analysis agree on RSI, EMAs and score.
   */
  lemma PanelAgreesWithAnalysis(coinId: string, data: seq<Candle>)
    ensures PanelView(data).None? <==> |data| == 0
    ensures PanelView(data).Some? ==>
      var p := PanelView(data).value;
      |p.emaShort| == |data| && |p.emaLong| == |data| &&
      p.emaShort[0] == data[0].close && p.emaLong[0] == data[0].close &&
      0.0 <= p.rsi <= 100.0 && p.score <= 3
    ensures |data| >= RSI_PERIOD ==>
      var p := PanelView(data).value;
      var a := Analyze(coinId, data).value;
      p.rsi == a.rsi && p.price == a.price && p.score == a.score &&
      p.emaShort[|data| - 1] == a.emaShort && p.emaLong[|data| - 1] == a.emaLong
  {
    if |data| > 0 {
      RsiInRange(Closes(data));
    }
  }

  // ---------------------------------------------------------------------
  // Coins with the maximum score
  // ---------------------------------------------------------------------

  predicate IsBullish(analysis: Option<Analysis>)
  {
    analysis.Some? && analysis.value.score == 3
  }

  /** The analyses in the order of the listed coins; `feeds[i]` is the data fetched for `coins[i]`. */
  function Analyses(coins: seq<string>, feeds: seq<seq<Candle>>): seq<Option<Analysis>>
    requires |coins| == |feeds|
  {
    seq(|coins|, i requires 0 <= i < |coins| => Analyze(coins[i], feeds[i]))
  }

  /** The score-3 analyses of a list, in order. */
  function KeepBullish(analyses: seq<Option<Analysis>>): seq<Analysis>
    decreases |analyses|
  {
    if |analyses| == 0 then []
    else
      var last := analyses[|analyses| - 1];
      KeepBullish(analyses[..|analyses| - 1]) + (if IsBullish(last) then [last.value] else [])
  }

  /** bullish_results */
  function Bullish(coins: seq<string>, feeds: seq<seq<Candle>>): seq<Analysis>
    requires |coins| == |feeds|
  {
    KeepBullish(Analyses(coins, feeds))
  }

  /** The loop that analyses every listed coin and keeps those with score 3. */
  method CollectBullish(coins: seq<string>, feeds: seq<seq<Candle>>) returns (bullish: seq<Analysis>)
    requires |coins| == |feeds|
    ensures bullish == Bullish(coins, feeds)
  {
    ghost var analyses := Analyses(coins, feeds);
    bullish := [];
    for i := 0 to |coins|
      invariant bullish == KeepBullish(analyses[..i])
    {
      var analysis := AnalyzeCoin(coins[i], feeds[i]);
      if analysis.Some? && analysis.value.score == 3 {
        bullish := bullish + [analysis.value];
      }
      assert analyses[..i + 1][..i] == analyses[..i];
    }
    assert analyses[..|coins|] == analyses;
  }

  /**
   * A list's score-3 entries, in order: a strictly increasing choice of
   * positions, one per kept entry, holding every position whose analysis
   * scores 3 and no other.
   */
  lemma {:induction false} KeepBullishIsOrderedFilter(analyses: seq<Option<Analysis>>)
    returns (positions: seq<nat>)
    ensures |positions| == |KeepBullish(analyses)|
    ensures forall j :: 0 <= j < |positions| ==>
      positions[j] < |analyses| && analyses[positions[j]] == Some(KeepBullish(analyses)[j])
    ensures forall j, j' :: 0 <= j < j' < |positions| ==> positions[j] < positions[j']
    ensures forall i :: 0 <= i < |analyses| ==> (i in positions <==> IsBullish(analyses[i]))
    decreases |analyses|
  {
    if |analyses| == 0 {
      return [];
    }
    var n := |analyses| - 1;
    var front := analyses[..n];
    var earlier := KeepBullishIsOrderedFilter(front);
    var last := analyses[n];
    if IsBullish(last) {
      positions := earlier + [n];
      assert KeepBullish(analyses) == KeepBullish(front) + [last.value];
    } else {
      positions := earlier;
      assert KeepBullish(analyses) == KeepBullish(front) + [];
    }
    assert forall i :: 0 <= i < n ==> front[i] == analyses[i];
  }

  /**
   * bullish_results is exactly the score-3 analyses in the order of the
   * listed coins, each carrying the id of the coin it was computed for.
   */
  lemma BullishIsOrderedFilter(coins: seq<string>, feeds: seq<seq<Candle>>)
    returns (positions: seq<nat>)
    requires |coins| == |feeds|
    ensures |positions| == |Bullish(coins, feeds)|
    ensures forall j :: 0 <= j < |positions| ==>
      positions[j] < |coins| &&
      Analyze(coins[positions[j]], feeds[positions[j]]) == Some(Bullish(coins, feeds)[j])
    ensures forall j, j' :: 0 <= j < j' < |positions| ==> positions[j] < positions[j']
    ensures forall i :: 0 <= i < |coins| ==> (i in positions <==> IsBullish(Analyze(coins[i], feeds[i])))
    ensures forall j :: 0 <= j < |positions| ==>
      Bullish(coins, feeds)[j].score == 3 && Bullish(coins, feeds)[j].coinId == coins[positions[j]]
  {
    var analyses := Analyses(coins, feeds);
    positions := KeepBullishIsOrderedFilter(analyses);
    forall j | 0 <= j < |positions|
      ensures Bullish(coins, feeds)[j].coinId == coins[positions[j]]
    {
      AnalysisContract(coins[positions[j]], feeds[positions[j]]);
    }
  }
}
