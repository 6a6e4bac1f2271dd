/** Market data: the 24-hour ticker filter of fetch_binance_data, the close-price
    extraction of fetch_historical_close_prices, and the cross-sectional mean volume. */
module Market {
  import opened Outcomes

  /** One row of the 24-hour ticker response. `volume` is the result of numeric
      coercion (None where it yields NaN); `priceChangePercent` is the result of
      `float()` on the field (None where that raises). */
  datatype TickerRow = TickerRow(symbol: string, volume: Option<real>, priceChangePercent: Option<real>)

  /** A row that survived the filter: its volume is numeric. */
  datatype Ticker = Ticker(symbol: string, volume: real, priceChangePercent: Option<real>)

  predicate Kept(row: TickerRow, pairs: seq<string>) {
    row.symbol in pairs && row.volume.Some?
  }

  function AsTicker(row: TickerRow): Ticker
    requires row.volume.Some?
  {
    Ticker(row.symbol, row.volume.value, row.priceChangePercent)
  }

  /** `isin(usdt_pairs)` followed by `dropna(subset=["volume"])`. */
  function KeepTickers(rows: seq<TickerRow>, pairs: seq<string>): (r: seq<Ticker>)
    ensures |r| <= |rows|
    ensures forall t :: t in r ==> exists i :: 0 <= i < |rows| && Kept(rows[i], pairs) && AsTicker(rows[i]) == t
    ensures forall i :: 0 <= i < |rows| && Kept(rows[i], pairs) ==> AsTicker(rows[i]) in r
  {
    if rows == [] then []
    else
      var rest := KeepTickers(rows[1..], pairs);
      assert forall i :: 1 <= i < |rows| ==> rows[i] == rows[1..][i - 1];
      if Kept(rows[0], pairs) then [AsTicker(rows[0])] + rest else rest
  }

  predicate PositiveVolumes(data: seq<Ticker>) {
    forall i :: 0 <= i < |data| ==> data[i].volume > 0.0
  }

  /** The whole of fetch_binance_data: a failed request yields no rows. */
  function FetchTickers(response: Fetch<seq<TickerRow>>, pairs: seq<string>): (r: seq<Ticker>)
    ensures forall t :: t in r ==> t.symbol in pairs
    ensures response.Failed? ==> r == []
  {
    match response
    case Failed => []
    case Fetched(rows) =>
      KeepTickers(rows, pairs)
  }

  /** The filter keeps the exchange's row order. */
  lemma {:induction false} KeepTickersAppend(a: seq<TickerRow>, b: seq<TickerRow>, pairs: seq<string>)
    ensures KeepTickers(a + b, pairs) == KeepTickers(a, pairs) + KeepTickers(b, pairs)
  {
    if a == [] {
      assert a + b == b;
    } else {
      assert (a + b)[1..] == a[1..] + b;
      KeepTickersAppend(a[1..], b, pairs);
    }
  }

  /** With an empty universe (a failed universe fetch) nothing is kept, so the
      cycle stops at its empty-data check. */
  lemma {:induction false} EmptyUniverseKeepsNothing(rows: seq<TickerRow>)
    ensures KeepTickers(rows, []) == []
  {
    if rows != [] {
      EmptyUniverseKeepsNothing(rows[1..]);
    }
  }

  /** One candle as the fields `float()` sees; None where `float()` raises. */
  type Candle = seq<Option<real>>

  /** Index 4 of a kline is its close price. */
  const CloseIndex: nat := 4

  predicate HasClose(c: Candle) {
    CloseIndex < |c| && c[CloseIndex].Some?
  }

  /** `[float(candle[4]) for candle in data]`: None when any candle is too short
      (IndexError) or its close is not a number (ValueError). */
  function ClosePrices(candles: seq<Candle>): (r: Option<seq<real>>)
    ensures r.None? <==> exists i :: 0 <= i < |candles| && !HasClose(candles[i])
    ensures r.Some? ==> (|r.value| == |candles| &&
      forall i :: 0 <= i < |candles| ==> r.value[i] == candles[i][CloseIndex].value)
  {
    if candles == [] then Some([])
    else
      var rest := ClosePrices(candles[1..]);
      assert forall i :: 1 <= i < |candles| ==> candles[i] == candles[1..][i - 1];
      if !HasClose(candles[0]) || rest.None? then None
      else Some([candles[0][CloseIndex].value] + rest.value)
  }

  /** fetch_historical_close_prices: every failure yields the empty series. */
  function FetchHistory(response: Fetch<seq<Candle>>): (r: seq<real>)
    ensures response.Fetched? && ClosePrices(response.payload).Some? ==>
      |r| == |response.payload| &&
      forall i :: 0 <= i < |r| ==> r[i] == response.payload[i][CloseIndex].value
    ensures response.Failed? || ClosePrices(response.payload).None? ==> r == []
  {
    match response
    case Failed => []
    case Fetched(candles) =>
      match ClosePrices(candles)
      case None => []
      case Some(closes) => closes
  }

  function SumVolume(data: seq<Ticker>): (r: real)
    ensures data != [] && PositiveVolumes(data) ==> r > 0.0
  {
    if data == [] then 0.0
    else
      assert forall i :: 0 <= i < |data| - 1 ==> data[1..][i] == data[i + 1];
      data[0].volume + SumVolume(data[1..])
  }

  /** `data["volume"].mean()`: positive when the total volume is, in particular when every volume is. */
  function MeanVolume(data: seq<Ticker>): (r: real)
    requires data != []
    ensures SumVolume(data) > 0.0 ==> r > 0.0
    ensures PositiveVolumes(data) ==> r > 0.0
  {
    SumVolume(data) / (|data| as real)
  }
}
