/** The two sentiment scorers: calculate_market_sentiment_by_volume (the volume and
    price fallback) and calculate_market_sentiment (the indicator-based score). */
module Sentiment {
  import opened Outcomes

  /** `max(0, min(1, x))`. */
  function Clamp01(x: real): (r: real)
    ensures 0.0 <= r <= 1.0
    ensures 0.0 <= x <= 1.0 ==> r == x
    ensures x < 0.0 ==> r == 0.0
    ensures x > 1.0 ==> r == 1.0
  {
    var m := if 1.0 < x then 1.0 else x;
    if m < 0.0 then 0.0 else m
  }

  /** `(current_volume - average_volume) / average_volume`: the relative excess
      of this symbol's volume over the average. */
  function VolumeSpike(volume: real, average: real): (r: real)
    requires average > 0.0
    ensures r * average == volume - average
    ensures r > 2.0 <==> volume > 3.0 * average
  {
    (volume - average) / average
  }

  /** The spike mapped from [-1, 1] onto [0, 1]: half the volume-to-average ratio, clamped. */
  function VolumeSentiment(volume: real, average: real): (r: real)
    requires average > 0.0
    ensures r == Clamp01(volume / (2.0 * average))
  {
    var spike := VolumeSpike(volume, average);
    assert (spike + 1.0) / 2.0 == volume / (2.0 * average) by {
      assert average / average == 1.0;
      assert spike == volume / average - average / average;
      assert volume / (2.0 * average) == (volume / average) / 2.0;
    }
    Clamp01((spike + 1.0) / 2.0)
  }

  function PriceSentiment(priceChangePercent: real): (r: real)
    ensures 0.0 <= r <= 1.0
  {
    Clamp01(priceChangePercent / 100.0)
  }

  /** `0.1 if volume_spike > 2 else 0`. */
  function ConfidenceBoost(volume: real, average: real): (r: real)
    requires average > 0.0
    ensures r == 0.1 <==> volume > 3.0 * average
    ensures r == 0.0 <==> volume <= 3.0 * average
  {
    if VolumeSpike(volume, average) > 2.0 then 0.1 else 0.0
  }

  /** calculate_market_sentiment_by_volume: 0.7 of the volume sentiment, 0.3 of the
      price sentiment and the boost, capped at 1. */
  function ByVolume(volume: real, priceChangePercent: real, average: real): (r: real)
    requires average > 0.0
    ensures 0.0 <= r <= 1.0
  {
    var sum := 0.7 * VolumeSentiment(volume, average)
             + 0.3 * PriceSentiment(priceChangePercent)
             + ConfidenceBoost(volume, average);
    if 1.0 < sum then 1.0 else sum
  }

  /** The last values of the `talib` series: RSI, the stochastic-RSI rescale,
      MACD and the MACD signal line. */
  datatype Readings = Readings(rsi: real, stochRsi: real, macd: real, macdSignal: real)

  /** `1 if stoch_rsi[-1] < 20 else 0 if stoch_rsi[-1] > 80 else 0.5`. */
  function StochRsiSentiment(stochRsi: real): (r: real)
    ensures r == 1.0 <==> stochRsi < 20.0
    ensures r == 0.0 <==> stochRsi > 80.0
    ensures r == 0.5 <==> 20.0 <= stochRsi <= 80.0
  {
    if stochRsi < 20.0 then 1.0 else if stochRsi > 80.0 then 0.0 else 0.5
  }

  /** `1 if macd[-1] > macd_signal[-1] else 0`. */
  function MacdSentiment(macd: real, macdSignal: real): (r: real)
    ensures r == 1.0 <==> macd > macdSignal
    ensures r == 0.0 <==> macd <= macdSignal
  {
    if macd > macdSignal then 1.0 else 0.0
  }

  /** `1 if rsi[-1] < 30 else 0 if rsi[-1] > 70 else 0.5`. */
  function RsiSentiment(rsi: real): (r: real)
    ensures r == 1.0 <==> rsi < 30.0
    ensures r == 0.0 <==> rsi > 70.0
    ensures r == 0.5 <==> 30.0 <= rsi <= 70.0
  {
    if rsi < 30.0 then 1.0 else if rsi > 70.0 then 0.0 else 0.5
  }

  /** The weighted sum of calculate_market_sentiment. */
  function IndicatorScore(volume: real, average: real, readings: Readings): (r: real)
    requires average > 0.0
    ensures 0.0 <= r <= 1.0
  {
    0.4 * VolumeSentiment(volume, average)
    + 0.2 * StochRsiSentiment(readings.stochRsi)
    + 0.2 * MacdSentiment(readings.macd, readings.macdSignal)
    + 0.2 * RsiSentiment(readings.rsi)
  }

  /** Fewer than this many closes sends a symbol to the fallback scorer. */
  const MinCloses: nat := 14

  /** calculate_market_sentiment. `talib` stands for the indicator library applied
      to the close series; None is an exception raised there, which the source
      turns into a None score. */
  function MarketSentiment(closes: seq<real>, volume: real, priceChangePercent: real, average: real,
                           talib: seq<real> -> Option<Readings>): (r: Option<real>)
    requires average > 0.0
    ensures r.Some? ==> 0.0 <= r.value <= 1.0
    ensures r.None? <==> |closes| >= MinCloses && talib(closes).None?
  {
    if |closes| < MinCloses then Some(ByVolume(volume, priceChangePercent, average))
    else
      match talib(closes)
      case None => None
      case Some(readings) => Some(IndicatorScore(volume, average, readings))
  }

  /** Spiking volume saturates the volume sentiment: at twice the average or more it is 1,
      at zero volume or less it is 0, and in between it grows with the volume. */
  lemma VolumeSentimentMonotone(v1: real, v2: real, average: real)
    requires average > 0.0 && v1 <= v2
    ensures VolumeSentiment(v1, average) <= VolumeSentiment(v2, average)
    ensures v2 >= 2.0 * average ==> VolumeSentiment(v2, average) == 1.0
    ensures v1 <= 0.0 ==> VolumeSentiment(v1, average) == 0.0
  {
    assert v1 / (2.0 * average) <= v2 / (2.0 * average);
    if v2 >= 2.0 * average {
      assert v2 / (2.0 * average) >= 1.0;
    }
  }

  /** With at least 14 closes the price change plays no part in the score. */
  lemma PriceIgnoredWithHistory(closes: seq<real>, volume: real, p1: real, p2: real, average: real,
                                talib: seq<real> -> Option<Readings>)
    requires average > 0.0 && |closes| >= MinCloses
    ensures MarketSentiment(closes, volume, p1, average, talib) == MarketSentiment(closes, volume, p2, average, talib)
  {
  }

  /** With fewer than 14 closes the score is exactly the fallback score. */
  lemma FallbackWithShortHistory(closes: seq<real>, volume: real, priceChangePercent: real, average: real,
                                 talib: seq<real> -> Option<Readings>)
    requires average > 0.0 && |closes| < MinCloses
    ensures MarketSentiment(closes, volume, priceChangePercent, average, talib)
         == Some(ByVolume(volume, priceChangePercent, average))
  {
  }

  /** Inside the emission window (price change below 1%) the fallback score exceeds
      0.79 only on the confidence boost: the volume must exceed three times the average. */
  lemma FallbackPassNeedsSpike(volume: real, priceChangePercent: real, average: real)
    requires average > 0.0 && priceChangePercent < 1.0
    requires ByVolume(volume, priceChangePercent, average) > 0.79
    ensures volume > 3.0 * average
  {
    if volume <= 3.0 * average {
      FallbackBoundWithoutBoost(volume, priceChangePercent, average);
    }
  }

  /** Without the boost, and with a price change below 1%, the fallback sum stays
      below 0.703: the volume term gives at most 0.7 and the price term less than 0.003. */
  lemma FallbackBoundWithoutBoost(volume: real, priceChangePercent: real, average: real)
    requires average > 0.0 && priceChangePercent < 1.0 && volume <= 3.0 * average
    ensures ConfidenceBoost(volume, average) == 0.0
    ensures 0.7 * VolumeSentiment(volume, average) + 0.3 * PriceSentiment(priceChangePercent) < 0.703
    ensures ByVolume(volume, priceChangePercent, average) < 0.703
  {
  }

  /** An indicator score above 0.79 needs a volume above 0.95 of the average: the three
      indicator sub-scores contribute at most 0.6. */
  lemma IndicatorPassNeedsVolume(volume: real, average: real, readings: Readings)
    requires average > 0.0
    requires IndicatorScore(volume, average, readings) > 0.79
    ensures volume > 0.95 * average
  {
    var vs := VolumeSentiment(volume, average);
    assert vs > 0.475;
    assert volume / (2.0 * average) > 0.475;
    assert volume > 0.475 * (2.0 * average);
  }
}
