/**
 * The "bearish comeback" entry signal: a pure comparison over a trailing
 * window of candles. The window is read with Python's negative indices:
 * `candles[-1]` is the decision bar, `candles[-2]` the bar before it and
 * `candles[-(period + 1)]` the bar `period` bars back.
 */
module Strategies {
  import opened Types

  /** A buy carries the fill price and the suggested size; no-buy carries nothing. */
  datatype Signal = NoBuy | Buy(price: real, amount: real)

  /** The window is long enough for every index the strategy reads. */
  predicate WindowReadable(candles: seq<Candle>, period: nat) {
    |candles| >= period + 1 && |candles| >= 2
  }

  /** The bar `period` bars before the decision bar: `candles[-(period + 1)]`. */
  function Origin(candles: seq<Candle>, period: nat): Candle
    requires WindowReadable(candles, period)
  {
    candles[|candles| - (period + 1)]
  }

  /** The bar before the decision bar: `candles[-2]`. */
  function Previous(candles: seq<Candle>): Candle
    requires |candles| >= 2
  {
    candles[|candles| - 2]
  }

  /** The decision bar: `candles[-1]`. */
  function Current(candles: seq<Candle>): Candle
    requires |candles| >= 1
  {
    candles[|candles| - 1]
  }

  /**
   * The open-to-open drop from the origin bar to the previous bar, in units
   * of the previous bar's standard deviation.
   */
  function Ratio(candles: seq<Candle>, period: nat): (r: real)
    requires WindowReadable(candles, period) && Previous(candles).stdDev != 0.0
    ensures r * Previous(candles).stdDev == Origin(candles, period).open - Previous(candles).open
  {
    (Origin(candles, period).open - Previous(candles).open) / Previous(candles).stdDev
  }

  /**
   * `A - B * ln(period + 1)`. The logarithm is not modelled: the caller
   * supplies its value as `lnPeriodPlusOne`.
   */
  function Threshold(cfg: Config, lnPeriodPlusOne: real): real {
    cfg.a - cfg.b * lnPeriodPlusOne
  }

  /** The previous bar closed below its open. */
  predicate IsBearish(c: Candle) {
    c.close < c.open
  }

  /**
   * Buy at the decision bar's open when the normalised drop exceeds the
   * threshold and the previous bar was bearish; the size is the base order
   * value scaled by the ratio.
   */
  function BearishComeback(candles: seq<Candle>, period: nat, cfg: Config, lnPeriodPlusOne: real): (s: Signal)
    requires WindowReadable(candles, period) && Previous(candles).stdDev != 0.0
    ensures s.Buy? ==> s.price == Current(candles).open
    ensures s.Buy? ==> IsBearish(Previous(candles))
    ensures s.Buy? ==> s.amount * Previous(candles).stdDev
                       == cfg.baseOrderValue * (Origin(candles, period).open - Previous(candles).open)
  {
    var ratio := Ratio(candles, period);
    var threshold := Threshold(cfg, lnPeriodPlusOne);
    var isBearish := IsBearish(Previous(candles));
    if ratio > threshold && isBearish then
      Buy(Current(candles).open, cfg.baseOrderValue * ratio)
    else
      NoBuy
  }

  /**
   * The decision without division: with a positive deviation the signal
   * fires exactly when the drop exceeds `threshold * std_dev`, with a
   * negative one exactly when it falls short of it; in both cases only after
   * a bearish previous bar.
   */
  lemma BuyIffScaledDrop(candles: seq<Candle>, period: nat, cfg: Config, lnPeriodPlusOne: real)
    requires WindowReadable(candles, period) && Previous(candles).stdDev != 0.0
    ensures var drop := Origin(candles, period).open - Previous(candles).open;
            var scaled := Threshold(cfg, lnPeriodPlusOne) * Previous(candles).stdDev;
            Previous(candles).stdDev > 0.0 ==>
              (BearishComeback(candles, period, cfg, lnPeriodPlusOne).Buy?
               <==> (drop > scaled && IsBearish(Previous(candles))))
    ensures var drop := Origin(candles, period).open - Previous(candles).open;
            var scaled := Threshold(cfg, lnPeriodPlusOne) * Previous(candles).stdDev;
            Previous(candles).stdDev < 0.0 ==>
              (BearishComeback(candles, period, cfg, lnPeriodPlusOne).Buy?
               <==> (drop < scaled && IsBearish(Previous(candles))))
  {
    var sd := Previous(candles).stdDev;
    var t := Threshold(cfg, lnPeriodPlusOne);
    var r := Ratio(candles, period);
    var drop := Origin(candles, period).open - Previous(candles).open;
    assert r * sd == drop;
    if sd > 0.0 {
      assert r > t <==> r * sd > t * sd;
    } else {
      assert r > t <==> r * sd < t * sd;
    }
  }

  /**
   * Two windows that agree on every bar but the decision bar get the same
   * decision and the same size; only the price follows the decision bar.
   * (With `period == 0` the origin bar would be the decision bar itself.)
   */
  lemma DecisionIgnoresCurrentBar(w1: seq<Candle>, w2: seq<Candle>, period: nat, cfg: Config, lnPeriodPlusOne: real)
    requires period >= 1 && WindowReadable(w1, period) && Previous(w1).stdDev != 0.0
    requires |w2| == |w1| && w1[..|w1| - 1] == w2[..|w2| - 1]
    ensures WindowReadable(w2, period) && Previous(w2).stdDev != 0.0
    ensures BearishComeback(w1, period, cfg, lnPeriodPlusOne).Buy?
            == BearishComeback(w2, period, cfg, lnPeriodPlusOne).Buy?
    ensures BearishComeback(w1, period, cfg, lnPeriodPlusOne).Buy? ==>
              BearishComeback(w1, period, cfg, lnPeriodPlusOne).amount
              == BearishComeback(w2, period, cfg, lnPeriodPlusOne).amount
  {
    var n := |w1|;
    assert w1[n - 2] == w1[..n - 1][n - 2] == w2[..n - 1][n - 2] == w2[n - 2];
    assert w1[n - (period + 1)] == w1[..n - 1][n - (period + 1)];
    assert w2[n - (period + 1)] == w2[..n - 1][n - (period + 1)];
  }

  /**
   * With a non-negative threshold and a positive base order value, a buy
   * always has a positive size.
   */
  lemma BuyAmountPositive(candles: seq<Candle>, period: nat, cfg: Config, lnPeriodPlusOne: real)
    requires WindowReadable(candles, period) && Previous(candles).stdDev != 0.0
    requires Threshold(cfg, lnPeriodPlusOne) >= 0.0 && cfg.baseOrderValue > 0.0
    ensures BearishComeback(candles, period, cfg, lnPeriodPlusOne).Buy? ==>
              BearishComeback(candles, period, cfg, lnPeriodPlusOne).amount > 0.0
  {
    var r := Ratio(candles, period);
    if r > Threshold(cfg, lnPeriodPlusOne) {
      assert r > 0.0;
      assert cfg.baseOrderValue * r > 0.0;
    }
  }

  /**
   * The hypothesis of `BuyAmountPositive` can fail under the parameter
   * ranges the program itself draws (A in [3.4, 3.8], B in [1.2, 1.7]):
   * with A = 3.4, B = 1.7 and ln 8 taken as 2.0794 the threshold is about
   * -0.135. An open that rises from 100 to 100.1 over a unit deviation,
   * after a bearish bar, then gives a buy of size -10 for a base order
   * value of 100, and nothing downstream rejects a negative size.
   */
  lemma NegativeThresholdBuysNegativeAmount()
    ensures var flat := Candle(0, 100.0, 100.0, 100.0, 100.0, 0.0, 0.0, 0.0, 1.0);
            var bearish := Candle(6, 100.1, 100.0, 100.1, 100.0, 0.0, 0.0, 0.0, 1.0);
            var current := Candle(7, 100.1, 100.1, 100.1, 100.1, 0.0, 0.0, 0.0, 1.0);
            var w := [flat, flat, flat, flat, flat, flat, bearish, current];
            var cfg := Config(1000.0, 500.0, 1, 100.0, 1.0, 1.5, 3.0, 3.4, 1.7);
            && WindowReadable(w, 7) && Previous(w).stdDev != 0.0
            && Threshold(cfg, 2.0794) < 0.0
            && BearishComeback(w, 7, cfg, 2.0794) == Buy(100.1, -10.0)
  {
  }
}
