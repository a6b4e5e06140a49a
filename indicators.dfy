/**
 * The indicator engine of app.py: the Relative Strength Index over a
 * sequence of closing prices (calculate_rsi), the exponential moving
 * average (calculate_ema), and the per-candle RSI series drawn under the
 * price chart.  Prices are exact reals.
 */
module Indicators {
  import opened Wrappers

  /** Window length and fixed divisor of the RSI averages. */
  const RSI_PERIOD: nat := 14
  /** Periods of the short and long EMA. */
  const EMA_SHORT: nat := 9
  const EMA_LONG: nat := 21

  function Abs(x: real): real
  {
    if x < 0.0 then -x else x
  }

  /** Python's `sum`, here taken from the back of the list. */
  function Sum(xs: seq<real>): (s: real)
    ensures (forall i :: 0 <= i < |xs| ==> xs[i] >= 0.0) ==> s >= 0.0
  {
    if |xs| == 0 then 0.0 else Sum(xs[..|xs| - 1]) + xs[|xs| - 1]
  }

  /** Python's `xs[-RSI_PERIOD:]`: the last RSI_PERIOD entries, or all of them. */
  function LastWindow(xs: seq<real>): seq<real>
  {
    if |xs| <= RSI_PERIOD then xs else xs[|xs| - RSI_PERIOD..]
  }

  // ---------------------------------------------------------------------
  // RSI specification
  // ---------------------------------------------------------------------

  /**
   * The `gains` list after the delta loop: each positive difference of
   * consecutive prices, in order.
   */
  function Gains(prices: seq<real>): (gains: seq<real>)
    ensures forall i :: 0 <= i < |gains| ==> gains[i] > 0.0
    decreases |prices|
  {
    if |prices| < 2 then []
    else
      var delta := prices[|prices| - 1] - prices[|prices| - 2];
      Gains(prices[..|prices| - 1]) + (if delta > 0.0 then [delta] else [])
  }

  /**
   * The `losses` list after the delta loop: the magnitude of every
   * difference that is not positive, a zero difference included.
   */
  function Losses(prices: seq<real>): (losses: seq<real>)
    ensures forall i :: 0 <= i < |losses| ==> losses[i] >= 0.0
    decreases |prices|
  {
    if |prices| < 2 then []
    else
      var delta := prices[|prices| - 1] - prices[|prices| - 2];
      Losses(prices[..|prices| - 1]) + (if delta > 0.0 then [] else [Abs(delta)])
  }

  /** Sum of the last RSI_PERIOD entries divided by RSI_PERIOD, or 0 for an empty list. */
  function WindowAverage(xs: seq<real>): real
  {
    if |xs| > 0 then Sum(LastWindow(xs)) / (RSI_PERIOD as real) else 0.0
  }

  function AvgGain(prices: seq<real>): (avgGain: real)
    ensures avgGain >= 0.0
  {
    WindowAverage(Gains(prices))
  }

  function AvgLoss(prices: seq<real>): (avgLoss: real)
    ensures avgLoss >= 0.0
  {
    WindowAverage(Losses(prices))
  }

  /** The value calculate_rsi returns. */
  function RsiSpec(prices: seq<real>): real
  {
    var avgGain := AvgGain(prices);
    var avgLoss := AvgLoss(prices);
    if avgLoss == 0.0 then 100.0
    else
      RatioNonNegative(avgGain, avgLoss);
      Oscillator(avgGain / avgLoss)
  }

  /** The relative strength rs mapped onto the 0..100 scale. */
  function Oscillator(rs: real): real
    requires rs >= 0.0
  {
    100.0 - 100.0 / (1.0 + rs)
  }

  lemma RatioNonNegative(g: real, l: real)
    requires g >= 0.0 && l > 0.0
    ensures g / l >= 0.0
  {
    assert (g / l) * l == g;
  }

  /** calculate_rsi: the delta loop, then the two window averages and the ratio. */
  method CalculateRsi(prices: seq<real>) returns (rsi: real)
    ensures rsi == RsiSpec(prices)
    ensures 0.0 <= rsi <= 100.0
  {
    var gains: seq<real>, losses: seq<real> := [], [];
    var i := 1;
    while i < |prices|
      invariant 1 <= i && (i <= |prices| || |prices| == 0)
      invariant |prices| > 0 ==> gains == Gains(prices[..i]) && losses == Losses(prices[..i])
      invariant |prices| == 0 ==> gains == [] && losses == []
    {
      var delta := prices[i] - prices[i - 1];
      SplitStep(prices, i);
      if delta > 0.0 {
        gains := gains + [delta];
      } else {
        losses := losses + [Abs(delta)];
      }
      i := i + 1;
    }
    assert |prices| > 0 ==> prices[..i] == prices;
    assert gains == Gains(prices) && losses == Losses(prices);
    var avgGain := if |gains| > 0 then Sum(LastWindow(gains)) / (RSI_PERIOD as real) else 0.0;
    var avgLoss := if |losses| > 0 then Sum(LastWindow(losses)) / (RSI_PERIOD as real) else 0.0;
    assert avgGain == AvgGain(prices) && avgLoss == AvgLoss(prices);
    RsiInRange(prices);
    if avgLoss == 0.0 {
      return 100.0;
    }
    RatioNonNegative(avgGain, avgLoss);
    var rs := avgGain / avgLoss;
    rsi := 100.0 - 100.0 / (1.0 + rs);
    assert rsi == Oscillator(rs);
  }

  /** One turn of the delta loop extends exactly one of the two lists. */
  lemma SplitStep(prices: seq<real>, i: nat)
    requires 1 <= i < |prices|
    ensures var delta := prices[i] - prices[i - 1];
            Gains(prices[..i + 1]) == Gains(prices[..i]) + (if delta > 0.0 then [delta] else []) &&
            Losses(prices[..i + 1]) == Losses(prices[..i]) + (if delta > 0.0 then [] else [Abs(delta)])
  {
    assert prices[..i + 1][..i] == prices[..i];
  }

  // ---------------------------------------------------------------------
  // RSI properties
  // ---------------------------------------------------------------------

  lemma SumAppend(xs: seq<real>, x: real)
    ensures Sum(xs + [x]) == Sum(xs) + x
  {
    assert (xs + [x])[..|xs|] == xs;
  }

  /**
   * Every delta lands in exactly one of the two lists: together they hold
   * one entry per consecutive pair, and the gains minus the losses
   * telescope to the net price change.
   */
  lemma {:induction false} SplitAccountsForEveryDelta(prices: seq<real>)
    ensures |Gains(prices)| + |Losses(prices)| == if |prices| == 0 then 0 else |prices| - 1
    ensures |prices| > 0 ==>
      Sum(Gains(prices)) - Sum(Losses(prices)) == prices[|prices| - 1] - prices[0]
    decreases |prices|
  {
    if |prices| >= 2 {
      var front := prices[..|prices| - 1];
      var delta := prices[|prices| - 1] - prices[|prices| - 2];
      SplitAccountsForEveryDelta(front);
      assert front[|front| - 1] == prices[|prices| - 2] && front[0] == prices[0];
      if delta > 0.0 {
        SumAppend(Gains(front), delta);
        assert Losses(prices) == Losses(front);
      } else {
        SumAppend(Losses(front), Abs(delta));
        assert Gains(prices) == Gains(front);
      }
    }
  }

  /** A sum of non-negative entries is zero exactly when every entry is. */
  lemma {:induction false} SumZeroIffAllZero(xs: seq<real>)
    requires forall i :: 0 <= i < |xs| ==> xs[i] >= 0.0
    ensures Sum(xs) == 0.0 <==> forall i :: 0 <= i < |xs| ==> xs[i] == 0.0
    decreases |xs|
  {
    if |xs| > 0 {
      var front := xs[..|xs| - 1];
      SumZeroIffAllZero(front);
      assert forall i :: 0 <= i < |front| ==> front[i] == xs[i];
    }
  }

  /**
   * The loss average is zero exactly when every loss inside the window is
   * zero; this covers fewer than two prices and no losses at all.
   */
  lemma AvgLossZeroIff(prices: seq<real>)
    ensures AvgLoss(prices) == 0.0 <==>
      forall i :: 0 <= i < |LastWindow(Losses(prices))| ==> LastWindow(Losses(prices))[i] == 0.0
  {
    var losses := Losses(prices);
    var window := LastWindow(losses);
    assert forall i :: 0 <= i < |window| ==> window[i] == losses[|losses| - |window| + i];
    SumZeroIffAllZero(window);
    var total := Sum(window);
    assert (forall i :: 0 <= i < |window| ==> window[i] == 0.0) <==> total == 0.0;
    if |losses| > 0 {
      assert AvgLoss(prices) == total / 14.0;
      assert total / 14.0 == 0.0 <==> total == 0.0;
      assert AvgLoss(prices) == 0.0 ==> total == 0.0;
      assert total == 0.0 ==> AvgLoss(prices) == 0.0;
      assert LastWindow(Losses(prices)) == window;
    } else {
      assert window == [];
    }
  }

  lemma RatioBounds(g: real, l: real)
    requires g >= 0.0 && l > 0.0
    ensures g / l >= 0.0 && 0.0 <= Oscillator(g / l) < 100.0
  {
    RatioNonNegative(g, l);
    var d := 1.0 + g / l;
    assert d >= 1.0;
    assert (100.0 / d) * d == 100.0;
    assert 100.0 / d > 0.0;
    assert 100.0 / d <= 100.0;
  }

  /** The RSI lies in [0, 100] and is exactly 100 precisely when the loss average is zero. */
  lemma RsiInRange(prices: seq<real>)
    ensures 0.0 <= RsiSpec(prices) <= 100.0
    ensures RsiSpec(prices) == 100.0 <==> AvgLoss(prices) == 0.0
  {
    if AvgLoss(prices) != 0.0 {
      RatioBounds(AvgGain(prices), AvgLoss(prices));
    }
  }

  /**
   * The fixed divisor cancels: the RSI is 100 * G / (G + L) for the window
   * sums G and L of gains and losses, and 100 when L is zero.
   */
  lemma RsiFromWindowSums(prices: seq<real>)
    ensures var g := Sum(LastWindow(Gains(prices)));
            var l := Sum(LastWindow(Losses(prices)));
            (l == 0.0 ==> RsiSpec(prices) == 100.0) &&
            (l > 0.0 ==> RsiSpec(prices) == 100.0 * g / (g + l))
  {
    var g := Sum(LastWindow(Gains(prices)));
    var l := Sum(LastWindow(Losses(prices)));
    var p := RSI_PERIOD as real;
    AveragesOfWindowSums(prices);
    if l > 0.0 {
      DivisorCancels(g, l, p);
    }
  }

  /** Each average is its window sum over the fixed divisor, empty lists included. */
  lemma AveragesOfWindowSums(prices: seq<real>)
    ensures Sum(LastWindow(Gains(prices))) >= 0.0
    ensures AvgGain(prices) == Sum(LastWindow(Gains(prices))) / (RSI_PERIOD as real)
    ensures AvgLoss(prices) == Sum(LastWindow(Losses(prices))) / (RSI_PERIOD as real)
  {
    WindowNonNegative(Gains(prices));
    WindowAverageOfSum(Gains(prices));
    WindowAverageOfSum(Losses(prices));
  }

  lemma WindowAverageOfSum(xs: seq<real>)
    ensures WindowAverage(xs) == Sum(LastWindow(xs)) / (RSI_PERIOD as real)
  {
    if |xs| == 0 {
      assert LastWindow(xs) == [];
    }
  }

  lemma WindowNonNegative(xs: seq<real>)
    requires forall i :: 0 <= i < |xs| ==> xs[i] >= 0.0
    ensures Sum(LastWindow(xs)) >= 0.0
  {
    var window := LastWindow(xs);
    assert forall i :: 0 <= i < |window| ==> window[i] == xs[|xs| - |window| + i];
  }

  lemma DivisorCancels(g: real, l: real, p: real)
    requires g >= 0.0 && l > 0.0 && p > 0.0
    ensures (g / p) / (l / p) == g / l
    ensures g / l >= 0.0 && Oscillator(g / l) == 100.0 * g / (g + l)
  {
    assert (g / p) / (l / p) == g / l;
    var r := g / l;
    assert r * l == g;
    RatioNonNegative(g, l);
    var d := 1.0 + r;
    assert d * l == l + g;
    var q := 100.0 / d;
    assert q * d == 100.0;
    assert q * (l + g) == (q * d) * l;
    assert q * (l + g) == 100.0 * l;
    assert (100.0 - q) * (g + l) == 100.0 * g;
    QuotientUnique(100.0 - q, g + l, 100.0 * g);
  }

  lemma QuotientUnique(x: real, y: real, z: real)
    requires y != 0.0 && x * y == z
    ensures x == z / y
  {
  }

  /** With non-decreasing prices every loss is zero. */
  lemma {:induction false} LossesZeroWhenNonDecreasing(prices: seq<real>)
    requires forall i :: 1 <= i < |prices| ==> prices[i - 1] <= prices[i]
    ensures forall i :: 0 <= i < |Losses(prices)| ==> Losses(prices)[i] == 0.0
    decreases |prices|
  {
    if |prices| >= 2 {
      LossesZeroWhenNonDecreasing(prices[..|prices| - 1]);
    }
  }

  /** Prices that never fall give an RSI of exactly 100. */
  lemma RsiOfNonDecreasingPrices(prices: seq<real>)
    requires forall i :: 1 <= i < |prices| ==> prices[i - 1] <= prices[i]
    ensures RsiSpec(prices) == 100.0
  {
    LossesZeroWhenNonDecreasing(prices);
    AvgLossZeroIff(prices);
    var losses := Losses(prices);
    var window := LastWindow(losses);
    assert forall i :: 0 <= i < |window| ==> window[i] == losses[|losses| - |window| + i];
    RsiInRange(prices);
  }

  /**
   * Constant prices produce no gains and one zero loss per consecutive
   * pair: a zero difference is counted as a loss, not dropped.
   */
  lemma {:induction false} ConstantPricesSplit(prices: seq<real>, c: real)
    requires forall i :: 0 <= i < |prices| ==> prices[i] == c
    ensures Gains(prices) == []
    ensures |prices| > 0 ==> Losses(prices) == seq(|prices| - 1, _ => 0.0)
    decreases |prices|
  {
    if |prices| >= 2 {
      var n := |prices|;
      var init := prices[..n - 1];
      ConstantPricesSplit(init, c);
      SplitStep(prices, n - 1);
      assert prices[..n] == prices && init == prices[..n - 1];
      assert prices[n - 1] - prices[n - 2] == 0.0;
      assert Gains(prices) == Gains(init) + [];
      assert Losses(prices) == seq(n - 2, _ => 0.0) + [0.0];
      assert seq(n - 2, _ => 0.0) + [0.0] == seq(n - 1, _ => 0.0);
    }
  }

  /** Constant prices, by the split above, give an RSI of 100. */
  lemma ConstantPricesAreZeroLosses(prices: seq<real>, c: real)
    requires forall i :: 0 <= i < |prices| ==> prices[i] == c
    ensures Gains(prices) == []
    ensures |prices| > 0 ==> Losses(prices) == seq(|prices| - 1, _ => 0.0)
    ensures RsiSpec(prices) == 100.0
  {
    ConstantPricesSplit(prices, c);
    RsiOfNonDecreasingPrices(prices);
  }

  /** The fifteen closes of the mixed sample series. */
  predicate IsSampleCloses(s: seq<real>)
  {
    |s| == 15 &&
    s[0] == 100.0 && s[1] == 102.0 && s[2] == 101.0 && s[3] == 105.0 && s[4] == 107.0 &&
    s[5] == 106.0 && s[6] == 110.0 && s[7] == 112.0 && s[8] == 111.0 && s[9] == 115.0 &&
    s[10] == 117.0 && s[11] == 116.0 && s[12] == 120.0 && s[13] == 122.0 && s[14] == 121.0
  }

  /** One turn of the delta loop, counted: the length and the sum of exactly one list grow. */
  lemma SplitStepSums(prices: seq<real>, i: nat)
    requires 1 <= i < |prices|
    ensures var delta := prices[i] - prices[i - 1];
            |Gains(prices[..i + 1])| == |Gains(prices[..i])| + (if delta > 0.0 then 1 else 0) &&
            Sum(Gains(prices[..i + 1])) == Sum(Gains(prices[..i])) + (if delta > 0.0 then delta else 0.0) &&
            |Losses(prices[..i + 1])| == |Losses(prices[..i])| + (if delta > 0.0 then 0 else 1) &&
            Sum(Losses(prices[..i + 1])) == Sum(Losses(prices[..i])) + (if delta > 0.0 then 0.0 else -delta)
  {
    SplitStep(prices, i);
    var delta := prices[i] - prices[i - 1];
    if delta > 0.0 {
      SumAppend(Gains(prices[..i]), delta);
      assert Losses(prices[..i + 1]) == Losses(prices[..i]) + [];
      assert Losses(prices[..i]) + [] == Losses(prices[..i]);
    } else {
      SumAppend(Losses(prices[..i]), Abs(delta));
      assert Gains(prices[..i]) + [] == Gains(prices[..i]);
    }
  }

  lemma SampleWindowRsi(s: seq<real>)
    requires Sum(LastWindow(Gains(s))) == 26.0 && Sum(LastWindow(Losses(s))) == 5.0
    ensures RsiSpec(s) == 2600.0 / 31.0
  {
    assert |Gains(s)| > 0 && |Losses(s)| > 0;
    assert AvgGain(s) == 26.0 / 14.0 && AvgLoss(s) == 5.0 / 14.0;
    DivisorCancels(26.0, 5.0, 14.0);
    assert 100.0 * 26.0 / (26.0 + 5.0) == 2600.0 / 31.0;
  }

  lemma SamplePrefix2(s: seq<real>)
    requires IsSampleCloses(s)
    ensures |Gains(s[..2])| == 1 && Sum(Gains(s[..2])) == 2.0 &&
      |Losses(s[..2])| == 0 && Sum(Losses(s[..2])) == 0.0
  {
    var first := s[..1];
    assert |first| == 1;
    assert Gains(first) == [] && Losses(first) == [];
    SplitStepSums(s, 1);
  }

  lemma SamplePrefix3(s: seq<real>)
    requires IsSampleCloses(s)
    ensures |Gains(s[..3])| == 1 && Sum(Gains(s[..3])) == 2.0 &&
      |Losses(s[..3])| == 1 && Sum(Losses(s[..3])) == 1.0
  {
    SamplePrefix2(s);
    assert |Gains(s[..3])| == 1 && Sum(Gains(s[..3])) == 2.0 &&
      |Losses(s[..3])| == 1 && Sum(Losses(s[..3])) == 1.0 by { SplitStepSums(s, 2); }
  }

  lemma SamplePrefix5(s: seq<real>)
    requires IsSampleCloses(s)
    ensures |Gains(s[..5])| == 3 && Sum(Gains(s[..5])) == 8.0 &&
      |Losses(s[..5])| == 1 && Sum(Losses(s[..5])) == 1.0
  {
    SamplePrefix3(s);
    assert |Gains(s[..4])| == 2 && Sum(Gains(s[..4])) == 6.0 &&
      |Losses(s[..4])| == 1 && Sum(Losses(s[..4])) == 1.0 by { SplitStepSums(s, 3); }
    assert |Gains(s[..5])| == 3 && Sum(Gains(s[..5])) == 8.0 &&
      |Losses(s[..5])| == 1 && Sum(Losses(s[..5])) == 1.0 by { SplitStepSums(s, 4); }
  }

  lemma SamplePrefix7(s: seq<real>)
    requires IsSampleCloses(s)
    ensures |Gains(s[..7])| == 4 && Sum(Gains(s[..7])) == 12.0 &&
      |Losses(s[..7])| == 2 && Sum(Losses(s[..7])) == 2.0
  {
    SamplePrefix5(s);
    assert |Gains(s[..6])| == 3 && Sum(Gains(s[..6])) == 8.0 &&
      |Losses(s[..6])| == 2 && Sum(Losses(s[..6])) == 2.0 by { SplitStepSums(s, 5); }
    assert |Gains(s[..7])| == 4 && Sum(Gains(s[..7])) == 12.0 &&
      |Losses(s[..7])| == 2 && Sum(Losses(s[..7])) == 2.0 by { SplitStepSums(s, 6); }
  }

  lemma SamplePrefix9(s: seq<real>)
    requires IsSampleCloses(s)
    ensures |Gains(s[..9])| == 5 && Sum(Gains(s[..9])) == 14.0 &&
      |Losses(s[..9])| == 3 && Sum(Losses(s[..9])) == 3.0
  {
    SamplePrefix7(s);
    assert |Gains(s[..8])| == 5 && Sum(Gains(s[..8])) == 14.0 &&
      |Losses(s[..8])| == 2 && Sum(Losses(s[..8])) == 2.0 by { SplitStepSums(s, 7); }
    assert |Gains(s[..9])| == 5 && Sum(Gains(s[..9])) == 14.0 &&
      |Losses(s[..9])| == 3 && Sum(Losses(s[..9])) == 3.0 by { SplitStepSums(s, 8); }
  }

  lemma SamplePrefix11(s: seq<real>)
    requires IsSampleCloses(s)
    ensures |Gains(s[..11])| == 7 && Sum(Gains(s[..11])) == 20.0 &&
      |Losses(s[..11])| == 3 && Sum(Losses(s[..11])) == 3.0
  {
    SamplePrefix9(s);
    assert |Gains(s[..10])| == 6 && Sum(Gains(s[..10])) == 18.0 &&
      |Losses(s[..10])| == 3 && Sum(Losses(s[..10])) == 3.0 by { SplitStepSums(s, 9); }
    assert |Gains(s[..11])| == 7 && Sum(Gains(s[..11])) == 20.0 &&
      |Losses(s[..11])| == 3 && Sum(Losses(s[..11])) == 3.0 by { SplitStepSums(s, 10); }
  }

  lemma SamplePrefix13(s: seq<real>)
    requires IsSampleCloses(s)
    ensures |Gains(s[..13])| == 8 && Sum(Gains(s[..13])) == 24.0 &&
      |Losses(s[..13])| == 4 && Sum(Losses(s[..13])) == 4.0
  {
    SamplePrefix11(s);
    assert |Gains(s[..12])| == 7 && Sum(Gains(s[..12])) == 20.0 &&
      |Losses(s[..12])| == 4 && Sum(Losses(s[..12])) == 4.0 by { SplitStepSums(s, 11); }
    assert |Gains(s[..13])| == 8 && Sum(Gains(s[..13])) == 24.0 &&
      |Losses(s[..13])| == 4 && Sum(Losses(s[..13])) == 4.0 by { SplitStepSums(s, 12); }
  }

  lemma SamplePrefix15(s: seq<real>)
    requires IsSampleCloses(s)
    ensures |Gains(s[..15])| == 9 && Sum(Gains(s[..15])) == 26.0 &&
      |Losses(s[..15])| == 5 && Sum(Losses(s[..15])) == 5.0
  {
    SamplePrefix13(s);
    assert |Gains(s[..14])| == 9 && Sum(Gains(s[..14])) == 26.0 &&
      |Losses(s[..14])| == 4 && Sum(Losses(s[..14])) == 4.0 by { SplitStepSums(s, 13); }
    assert |Gains(s[..15])| == 9 && Sum(Gains(s[..15])) == 26.0 &&
      |Losses(s[..15])| == 5 && Sum(Losses(s[..15])) == 5.0 by { SplitStepSums(s, 14); }
  }

  /**
   * A mixed series of fifteen closes: nine gains summing to 26 and five
   * unit losses give an RSI of 2600 / 31 (about 83.87).
   */
  lemma SampleSeriesRsi(s: seq<real>)
    requires IsSampleCloses(s)
    ensures RsiSpec(s) == 2600.0 / 31.0
  {
    SamplePrefix15(s);
    assert s[..15] == s;
    assert LastWindow(Gains(s)) == Gains(s) && LastWindow(Losses(s)) == Losses(s);
    SampleWindowRsi(s);
  }

  // ---------------------------------------------------------------------
  // The RSI series under the price chart
  // ---------------------------------------------------------------------

  /**
   * The series plotted under the price chart, as the code builds it: entry
   * i is None up to RSI_PERIOD and otherwise the RSI of the first i closes,
   * which leaves out close i itself.
   */
  function RsiSeries(prices: seq<real>): seq<Option<real>>
  {
    seq(|prices|, i requires 0 <= i < |prices| =>
      if i > RSI_PERIOD then Some(RsiSpec(prices[..i])) else None)
  }

  /** One entry per close; entries past RSI_PERIOD are prefix RSIs in [0, 100]. */
  lemma RsiSeriesShape(prices: seq<real>)
    ensures |RsiSeries(prices)| == |prices|
    ensures forall i :: 0 <= i < |prices| ==> (RsiSeries(prices)[i] == None <==> i <= RSI_PERIOD)
    ensures forall i :: RSI_PERIOD < i < |prices| ==>
      RsiSeries(prices)[i] == Some(RsiSpec(prices[..i])) &&
      0.0 <= RsiSpec(prices[..i]) <= 100.0
  {
    forall i | RSI_PERIOD < i < |prices| ensures 0.0 <= RsiSpec(prices[..i]) <= 100.0 {
      RsiInRange(prices[..i]);
    }
  }

  /** Fifteen closes of 1 and a drop to 0: no gains, fourteen zero losses and a loss of 1. */
  lemma DropAfterFlatSplit(prices: seq<real>)
    requires prices == seq(15, _ => 1.0) + [0.0]
    ensures Gains(prices) == [] && Losses(prices) == seq(14, _ => 0.0) + [1.0]
  {
    var flat := seq(15, _ => 1.0);
    assert prices[..15] == flat;
    ConstantPricesSplit(flat, 1.0);
    SplitStep(prices, 15);
    assert prices[..16] == prices;
  }

  /** The same closes: the loss window sums to 1, so the RSI of all closes is 0. */
  lemma DropAfterFlatRsi(prices: seq<real>)
    requires Gains(prices) == [] && Losses(prices) == seq(14, _ => 0.0) + [1.0]
    ensures RsiSpec(prices) == 0.0
  {
    var window := seq(13, _ => 0.0) + [1.0];
    assert LastWindow(Losses(prices)) == window;
    SumAppend(seq(13, _ => 0.0), 1.0);
    SumZeroIffAllZero(seq(13, _ => 0.0));
    assert AvgGain(prices) == 0.0;
    assert AvgLoss(prices) == 1.0 / 14.0;
    assert AvgGain(prices) / AvgLoss(prices) == 0.0;
  }

  /**
   * The last plotted entry lags the current RSI: fifteen equal closes and a
   * drop plot 100 at the last candle while the RSI of all closes is 0.
   */
  lemma RsiSeriesLagsCurrentRsi()
    ensures var prices := seq(15, _ => 1.0) + [0.0];
            RsiSeries(prices)[15] == Some(100.0) && RsiSpec(prices) == 0.0
  {
    var flat := seq(15, _ => 1.0);
    var prices := flat + [0.0];
    assert prices[..15] == flat;
    ConstantPricesAreZeroLosses(flat, 1.0);
    DropAfterFlatSplit(prices);
    DropAfterFlatRsi(prices);
  }

  /**
   * The series aligned with its candles: entry i is the RSI of the closes up
   * to and including close i, once more than RSI_PERIOD closes are known.
   */
  function RsiSeriesAligned(prices: seq<real>): seq<Option<real>>
  {
    seq(|prices|, i requires 0 <= i < |prices| =>
      if i + 1 > RSI_PERIOD then Some(RsiSpec(prices[..i + 1])) else None)
  }

  /**
   * Same length and the same data threshold as the plotted series, and the
   * last entry is the current RSI of all closes.
   */
  lemma RsiSeriesAlignedEndsAtCurrentRsi(prices: seq<real>)
    ensures |RsiSeriesAligned(prices)| == |prices|
    ensures forall i :: 0 <= i < |prices| ==>
      (RsiSeriesAligned(prices)[i] == None <==> |prices[..i + 1]| <= RSI_PERIOD)
    ensures forall i :: RSI_PERIOD <= i < |prices| ==>
      0.0 <= RsiSeriesAligned(prices)[i].value <= 100.0
    ensures |prices| > RSI_PERIOD ==> RsiSeriesAligned(prices)[|prices| - 1] == Some(RsiSpec(prices))
  {
    forall i | RSI_PERIOD <= i < |prices| ensures 0.0 <= RsiSeriesAligned(prices)[i].value <= 100.0 {
      RsiInRange(prices[..i + 1]);
    }
    assert prices[..|prices|] == prices;
  }

  // ---------------------------------------------------------------------
  // EMA
  // ---------------------------------------------------------------------

  /** The smoothing factor k = 2 / (period + 1). */
  function Smoothing(period: nat): (k: real)
    ensures 0.0 < k <= 2.0
    ensures period >= 1 ==> k <= 1.0
  {
    2.0 / (period as real + 1.0)
  }

  /** One smoothing step: the new price weighted by k, the previous EMA by 1 - k. */
  function Step(price: real, previous: real, k: real): real
  {
    price * k + previous * (1.0 - k)
  }

  /**
   * The list calculate_ema returns: seeded with the first price, then one
   * Step per later price.
   */
  function EmaSpec(prices: seq<real>, period: nat): (emas: seq<real>)
    requires |prices| > 0
    ensures |emas| == |prices|
    ensures emas[0] == prices[0]
    decreases |prices|
  {
    if |prices| == 1 then [prices[0]]
    else
      var previous := EmaSpec(prices[..|prices| - 1], period);
      previous + [Step(prices[|prices| - 1], previous[|previous| - 1], Smoothing(period))]
  }

  /** calculate_ema: the running `ema` and the `emas` list it is appended to. */
  method CalculateEma(prices: seq<real>, period: nat) returns (emas: seq<real>)
    requires |prices| > 0
    ensures emas == EmaSpec(prices, period)
  {
    var ema := prices[0];
    var k := 2.0 / (period as real + 1.0);
    assert k == Smoothing(period);
    emas := [ema];
    for i := 1 to |prices|
      invariant emas == EmaSpec(prices[..i], period)
      invariant ema == emas[|emas| - 1]
    {
      var price := prices[i];
      ghost var before := emas;
      ema := price * k + ema * (1.0 - k);
      assert ema == Step(price, before[|before| - 1], k);
      emas := emas + [ema];
      assert prices[..i + 1][..i] == prices[..i];
      assert EmaSpec(prices[..i + 1], period) == before + [Step(prices[i], before[|before| - 1], Smoothing(period))];
    }
    assert prices[..|prices|] == prices;
  }

  /** Earlier EMA values do not depend on later prices. */
  lemma {:induction false} EmaPrefix(prices: seq<real>, period: nat, n: nat)
    requires 1 <= n <= |prices|
    ensures EmaSpec(prices[..n], period) == EmaSpec(prices, period)[..n]
    decreases |prices|
  {
    if n < |prices| {
      var front := prices[..|prices| - 1];
      EmaPrefix(front, period, n);
      assert front[..n] == prices[..n];
    } else {
      assert prices[..n] == prices;
    }
  }

  /** The recurrence, read at any index. */
  lemma EmaAt(prices: seq<real>, period: nat, i: nat)
    requires 1 <= i < |prices|
    ensures EmaSpec(prices, period)[i] ==
      Step(prices[i], EmaSpec(prices, period)[i - 1], Smoothing(period))
  {
    var emas := EmaSpec(prices, period);
    var longer := EmaSpec(prices[..i + 1], period);
    var shorter := EmaSpec(prices[..i], period);
    EmaPrefix(prices, period, i + 1);
    EmaPrefix(prices, period, i);
    assert prices[..i + 1][..i] == prices[..i];
    assert longer == shorter + [Step(prices[i], shorter[i - 1], Smoothing(period))];
    assert emas[i] == longer[i];
    assert emas[i - 1] == shorter[i - 1];
  }

  /** A step lies between the price and the previous value when 0 <= k <= 1. */
  lemma StepBetween(x: real, y: real, k: real)
    requires 0.0 <= k <= 1.0
    ensures (if x <= y then x else y) <= Step(x, y, k) <= (if x <= y then y else x)
  {
    var d := x - y;
    assert Step(x, y, k) == y + d * k;
    if x <= y {
      ScaleDown(-d, k);
      assert (-d) * k == -(d * k);
    } else {
      ScaleDown(d, k);
    }
  }

  /** 0 <= d * k <= d for d >= 0 and 0 <= k <= 1. */
  lemma ScaleDown(d: real, k: real)
    requires d >= 0.0 && 0.0 <= k <= 1.0
    ensures 0.0 <= d * k <= d
  {
    assert d * (1.0 - k) >= 0.0;
  }

  /** Each later EMA value lies between the current price and the previous EMA value. */
  lemma EmaBetweenPriceAndPrevious(prices: seq<real>, period: nat, i: nat)
    requires period >= 1
    requires 1 <= i < |prices|
    ensures var emas := EmaSpec(prices, period);
            var lo := if prices[i] <= emas[i - 1] then prices[i] else emas[i - 1];
            var hi := if prices[i] <= emas[i - 1] then emas[i - 1] else prices[i];
            lo <= emas[i] <= hi
  {
    EmaAt(prices, period, i);
    StepBetween(prices[i], EmaSpec(prices, period)[i - 1], Smoothing(period));
  }

  /** Every EMA value lies within any bounds that hold every price. */
  lemma {:induction false} EmaWithinPriceBounds(prices: seq<real>, period: nat, lo: real, hi: real)
    requires period >= 1
    requires |prices| > 0
    requires forall i :: 0 <= i < |prices| ==> lo <= prices[i] <= hi
    ensures forall i :: 0 <= i < |prices| ==> lo <= EmaSpec(prices, period)[i] <= hi
    decreases |prices|
  {
    if |prices| > 1 {
      var front := prices[..|prices| - 1];
      EmaWithinPriceBounds(front, period, lo, hi);
      var emas := EmaSpec(prices, period);
      var n := |prices| - 1;
      assert emas[..n] == EmaSpec(front, period);
      EmaBetweenPriceAndPrevious(prices, period, n);
      assert forall i :: 0 <= i < n ==> emas[i] == EmaSpec(front, period)[i];
    }
  }

  /** A constant price series has a constant EMA, for every period. */
  lemma {:induction false} EmaOfConstant(prices: seq<real>, period: nat, c: real)
    requires |prices| > 0
    requires forall i :: 0 <= i < |prices| ==> prices[i] == c
    ensures forall i :: 0 <= i < |prices| ==> EmaSpec(prices, period)[i] == c
    decreases |prices|
  {
    if |prices| > 1 {
      var front := prices[..|prices| - 1];
      EmaOfConstant(front, period, c);
      var k := Smoothing(period);
      assert Step(c, c, k) == c;
    }
  }
}
