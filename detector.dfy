/** The detection cycle (detect_pumps) and the batch notification
    (send_batch_to_telegram), over the process-wide signal log. */
module Detector {
  import opened Outcomes
  import opened Universe
  import opened Market
  import opened Sentiment
  import Telegram

  /** One entry of `detected_signals`. */
  datatype Signal = Signal(symbol: string, priceChangePercent: real, volume: real,
                           sentimentScore: real, action: string, timestamp: string)

  const Buy: string := "BUY"
  const ScoreThreshold: real := 0.79
  const MinPriceChange: real := -2.0
  const MaxPriceChange: real := 1.0

  /** What the cycle reads from outside for each row: the klines response per symbol,
      the indicator library applied to a close series, and `datetime.now()` at the
      row with the given position, already rendered in ISO-8601. */
  datatype Environment = Environment(klines: string -> Fetch<seq<Candle>>,
                                     talib: seq<real> -> Option<Readings>,
                                     clock: nat -> string)

  /** The emission filter: a score, above 0.79, and a price change strictly inside (-2, 1).
      The source also tests the score for truthiness; a passing score is never 0, so that
      test adds nothing. */
  predicate Passes(score: Option<real>, priceChange: real): (r: bool)
    ensures r ==> score.Some? && score.value != 0.0
    ensures score.Some? && score.value == 0.0 ==> !r
  {
    score.Some? && score.value > ScoreThreshold && MinPriceChange < priceChange < MaxPriceChange
  }

  /** What every logged signal satisfies. */
  predicate Qualifies(s: Signal) {
    s.sentimentScore > ScoreThreshold && MinPriceChange < s.priceChangePercent < MaxPriceChange
    && s.action == Buy
  }

  /** The score of one row, from its history and the indicator library. */
  function RowScore(t: Ticker, priceChange: real, average: real, env: Environment): (r: Option<real>)
    requires average > 0.0
    ensures r.Some? ==> 0.0 <= r.value <= 1.0
  {
    MarketSentiment(FetchHistory(env.klines(t.symbol)), t.volume, priceChange, average, env.talib)
  }

  /** What one loop iteration does: `float()` on the price change raises, the row is
      skipped, or it yields a signal. */
  datatype RowOutcome = Raise | Skip | Emit(signal: Signal)

  function Judge(t: Ticker, index: nat, average: real, env: Environment): (r: RowOutcome)
    requires average > 0.0
    ensures r.Raise? <==> t.priceChangePercent.None?
    ensures r.Emit? <==> (t.priceChangePercent.Some? &&
      Passes(RowScore(t, t.priceChangePercent.value, average, env), t.priceChangePercent.value))
    ensures r.Emit? ==> (Qualifies(r.signal) && r.signal.symbol == t.symbol && r.signal.volume == t.volume
      && t.priceChangePercent == Some(r.signal.priceChangePercent) && r.signal.timestamp == env.clock(index)
      && RowScore(t, r.signal.priceChangePercent, average, env) == Some(r.signal.sentimentScore))
  {
    match t.priceChangePercent
    case None => Raise
    case Some(priceChange) =>
      var score := RowScore(t, priceChange, average, env);
      if Passes(score, priceChange)
      then Emit(Signal(t.symbol, priceChange, t.volume, score.value, Buy, env.clock(index)))
      else Skip
  }

  /** The signals of a pass over some rows, and whether the pass stopped on a raise. */
  datatype Scan = Scan(signals: seq<Signal>, raised: bool)

  /** The loop of detect_pumps, as a function of the outcomes of the rows it has
      seen: signals accumulate in order until a row raises. */
  function Collect(outcomes: seq<RowOutcome>): (r: Scan)
    ensures |r.signals| <= |outcomes|
    ensures r.raised ==> outcomes != []
    decreases |outcomes|
  {
    if outcomes == [] then Scan([], false)
    else
      var n := |outcomes| - 1;
      var before := Collect(outcomes[..n]);
      if before.raised then before
      else
        match outcomes[n]
        case Raise => Scan(before.signals, true)
        case Skip => before
        case Emit(s) => Scan(before.signals + [s], false)
  }

  /** The outcome of every row, at its position. */
  function Judged(rows: seq<Ticker>, average: real, env: Environment): (r: seq<RowOutcome>)
    requires average > 0.0
    ensures |r| == |rows|
    ensures forall i :: 0 <= i < |rows| ==> r[i] == Judge(rows[i], i, average, env)
  {
    seq(|rows|, i requires 0 <= i < |rows| => Judge(rows[i], i, average, env))
  }

  function ScanRows(rows: seq<Ticker>, average: real, env: Environment): Scan
    requires average > 0.0
  {
    Collect(Judged(rows, average, env))
  }

  /** The whole loop of a cycle over non-empty data, scored against the data's mean volume. */
  function CycleScan(data: seq<Ticker>, env: Environment): Scan
    requires data != [] && SumVolume(data) > 0.0
  {
    ScanRows(data, MeanVolume(data), env)
  }

  /** Every collected signal is the signal of some emitting row. */
  lemma {:induction false} CollectSound(outcomes: seq<RowOutcome>)
    ensures |Collect(outcomes).signals| <= |outcomes|
    ensures forall s :: s in Collect(outcomes).signals ==>
      exists i :: 0 <= i < |outcomes| && outcomes[i] == Emit(s)
  {
    if outcomes != [] {
      var n := |outcomes| - 1;
      CollectSound(outcomes[..n]);
      assert forall i :: 0 <= i < n ==> outcomes[..n][i] == outcomes[i];
    }
  }

  /** A pass raises exactly when some row raises. */
  lemma {:induction false} CollectRaisedIff(outcomes: seq<RowOutcome>)
    ensures Collect(outcomes).raised <==> exists i :: 0 <= i < |outcomes| && outcomes[i].Raise?
  {
    if outcomes != [] {
      var n := |outcomes| - 1;
      CollectRaisedIff(outcomes[..n]);
      assert forall i :: 0 <= i < n ==> outcomes[..n][i] == outcomes[i];
    }
  }

  /** A pass that does not raise keeps the signal of every emitting row. */
  lemma {:induction false} CollectComplete(outcomes: seq<RowOutcome>)
    requires !Collect(outcomes).raised
    ensures forall i :: 0 <= i < |outcomes| && outcomes[i].Emit? ==> outcomes[i].signal in Collect(outcomes).signals
  {
    if outcomes != [] {
      var n := |outcomes| - 1;
      CollectComplete(outcomes[..n]);
      assert forall i :: 0 <= i < n ==> outcomes[..n][i] == outcomes[i];
    }
  }

  /** Once a prefix has raised, the rows after it change nothing: the exception
      leaves the loop. */
  lemma {:induction false} CollectStops(outcomes: seq<RowOutcome>, k: nat)
    requires k <= |outcomes|
    requires Collect(outcomes[..k]).raised
    ensures Collect(outcomes) == Collect(outcomes[..k])
    decreases |outcomes| - k
  {
    if k < |outcomes| {
      var n := |outcomes| - 1;
      assert outcomes[..n][..k] == outcomes[..k];
      CollectStops(outcomes[..n], k);
    } else {
      assert outcomes[..k] == outcomes;
    }
  }

  /** Signals appear in row order: the signals of a prefix of the rows are a prefix
      of the signals of all of them. */
  lemma {:induction false} CollectPrefix(outcomes: seq<RowOutcome>, k: nat)
    requires k <= |outcomes|
    ensures Collect(outcomes[..k]).signals <= Collect(outcomes).signals
    decreases |outcomes| - k
  {
    if k < |outcomes| {
      var n := |outcomes| - 1;
      assert outcomes[..n][..k] == outcomes[..k];
      CollectPrefix(outcomes[..n], k);
    } else {
      assert outcomes[..k] == outcomes;
    }
  }

  /** An independent reading of the batch: the signal of every emitting row, taken
      from the front, in row order and once each. */
  function Emitted(outcomes: seq<RowOutcome>): (r: seq<Signal>)
    ensures |r| <= |outcomes|
  {
    if outcomes == [] then []
    else (if outcomes[0].Emit? then [outcomes[0].signal] else []) + Emitted(outcomes[1..])
  }

  /** Emitted, read from the back: the last row adds its signal, if it emits, at the end. */
  lemma {:induction false} EmittedSnoc(outcomes: seq<RowOutcome>)
    requires outcomes != []
    ensures var n := |outcomes| - 1;
      Emitted(outcomes) == Emitted(outcomes[..n]) + (if outcomes[n].Emit? then [outcomes[n].signal] else [])
  {
    var n := |outcomes| - 1;
    if n == 0 {
      assert outcomes[..n] == [];
      assert outcomes[1..] == [];
    } else {
      var head := if outcomes[0].Emit? then [outcomes[0].signal] else [];
      var tail := if outcomes[n].Emit? then [outcomes[n].signal] else [];
      EmittedSnoc(outcomes[1..]);
      assert outcomes[1..][..n - 1] == outcomes[..n][1..];
      assert outcomes[1..][n - 1] == outcomes[n];
      assert outcomes[..n][0] == outcomes[0];
      assert Emitted(outcomes[..n]) == head + Emitted(outcomes[..n][1..]);
      assert head + (Emitted(outcomes[..n][1..]) + tail) == (head + Emitted(outcomes[..n][1..])) + tail;
    }
  }

  /** A pass that does not raise collects exactly the emitted signals: each emitting
      row's signal once, in row order, and nothing else. */
  lemma {:induction false} CollectIsEmitted(outcomes: seq<RowOutcome>)
    requires !Collect(outcomes).raised
    ensures Collect(outcomes).signals == Emitted(outcomes)
  {
    if outcomes != [] {
      var n := |outcomes| - 1;
      CollectIsEmitted(outcomes[..n]);
      EmittedSnoc(outcomes);
    }
  }

  /** The filter is exact: every signal of a pass qualifies and is the signal of one
      of its rows; a pass that does not raise has the signal of every passing row. */
  lemma ScanExact(rows: seq<Ticker>, average: real, env: Environment)
    requires average > 0.0
    ensures forall s :: s in ScanRows(rows, average, env).signals ==>
      Qualifies(s) && exists i :: 0 <= i < |rows| && Judge(rows[i], i, average, env) == Emit(s)
    ensures !ScanRows(rows, average, env).raised ==>
      forall i :: 0 <= i < |rows| && Judge(rows[i], i, average, env).Emit? ==>
        Judge(rows[i], i, average, env).signal in ScanRows(rows, average, env).signals
  {
    var outcomes := Judged(rows, average, env);
    CollectSound(outcomes);
    if !Collect(outcomes).raised {
      CollectComplete(outcomes);
    }
  }

  /** A pass raises exactly when some row's price change does not convert. */
  lemma ScanRaisedIff(rows: seq<Ticker>, average: real, env: Environment)
    requires average > 0.0
    ensures ScanRows(rows, average, env).raised <==>
      exists i :: 0 <= i < |rows| && rows[i].priceChangePercent.None?
  {
    var outcomes := Judged(rows, average, env);
    CollectRaisedIff(outcomes);
    assert forall i :: 0 <= i < |rows| ==> (outcomes[i].Raise? <==> rows[i].priceChangePercent.None?);
  }

  /** Number rendering (`str()` of a float and `:.2f`), left opaque. */
  datatype Formatter = Formatter(repr: real -> string, twoDecimals: real -> string)

  const Header: string := "Pump Signals Detected:\n\n"

  /** Joins strings end to end. */
  function Concat(parts: seq<string>): string {
    if parts == [] then "" else Concat(parts[..|parts| - 1]) + parts[|parts| - 1]
  }

  /** The six lines of one signal's block; the last one ends the block with a blank line. */
  function BlockLines(s: Signal, fmt: Formatter): (r: seq<string>)
    ensures |r| == 6
    ensures forall i :: 0 <= i < |r| ==> r[i] != [] && r[i][|r[i]| - 1] == '\n'
  {
    [ "Symbol: " + s.symbol + "\n",
      "Price Change: " + fmt.repr(s.priceChangePercent) + "%\n",
      "Volume: " + fmt.repr(s.volume) + "\n",
      "Sentiment Score: " + fmt.twoDecimals(s.sentimentScore) + "\n",
      "Action: " + s.action + "\n",
      "Time: " + s.timestamp + "\n\n" ]
  }

  function Block(s: Signal, fmt: Formatter): string {
    Concat(BlockLines(s, fmt))
  }

  /** Every block ends with a blank line, which separates it from the next one. */
  lemma BlockEndsWithBlankLine(s: Signal, fmt: Formatter)
    ensures var b := Block(s, fmt); |b| >= 2 && b[|b| - 2..] == "\n\n"
  {
    var lines := BlockLines(s, fmt);
    var last := "Time: " + s.timestamp + "\n\n";
    assert lines[5] == last;
    assert Block(s, fmt) == Concat(lines[..5]) + last;
    assert last[|last| - 2..] == "\n\n";
  }

  /** The block of every signal, in order. */
  function BlockList(signals: seq<Signal>, fmt: Formatter): (r: seq<string>)
    ensures |r| == |signals|
    ensures forall i :: 0 <= i < |signals| ==> r[i] == Block(signals[i], fmt)
  {
    seq(|signals|, i requires 0 <= i < |signals| => Block(signals[i], fmt))
  }

  /** The text of one batch notification. */
  function Message(signals: seq<Signal>, fmt: Formatter): (r: string)
    ensures |Header| <= |r| && r[..|Header|] == Header
  {
    Header + Concat(BlockList(signals, fmt))
  }

  lemma {:induction false} ConcatAppend(a: seq<string>, b: seq<string>)
    ensures Concat(a + b) == Concat(a) + Concat(b)
    decreases |b|
  {
    if b == [] {
      assert a + b == a;
    } else {
      var n := |b| - 1;
      var ab := a + b;
      assert ab[..|ab| - 1] == a + b[..n];
      assert ab[|ab| - 1] == b[n];
      ConcatAppend(a, b[..n]);
    }
  }

  /** Part i of a concatenation sits right after the parts before it. */
  lemma ConcatAt(parts: seq<string>, i: nat)
    requires i < |parts|
    ensures var start := |Concat(parts[..i])|;
      start + |parts[i]| <= |Concat(parts)| && Concat(parts)[start..start + |parts[i]|] == parts[i]
  {
    assert parts == parts[..i] + [parts[i]] + parts[i + 1..];
    ConcatAppend(parts[..i] + [parts[i]], parts[i + 1..]);
    ConcatAppend(parts[..i], [parts[i]]);
    assert Concat([parts[i]]) == parts[i] by {
      assert [parts[i]][..0] == [];
    }
  }

  /** The message holds one block per signal, in order: the block of signal i starts
      right after the header and the blocks of the signals before it. */
  lemma BlockAt(signals: seq<Signal>, i: nat, fmt: Formatter)
    requires i < |signals|
    ensures var start := |Header| + |Concat(BlockList(signals[..i], fmt))|;
      var block := Block(signals[i], fmt);
      start + |block| <= |Message(signals, fmt)| &&
      Message(signals, fmt)[start..start + |block|] == block
  {
    var blocks := BlockList(signals, fmt);
    assert BlockList(signals[..i], fmt) == blocks[..i];
    ConcatAt(blocks, i);
    SliceAfterPrefix(Header, Concat(blocks), |Concat(blocks[..i])|, |Concat(blocks[..i])| + |blocks[i]|);
  }

  lemma SliceAfterPrefix(prefix: string, body: string, lo: nat, hi: nat)
    requires lo <= hi <= |body|
    ensures (prefix + body)[|prefix| + lo..|prefix| + hi] == body[lo..hi]
  {
  }

  /** How a cycle ended: no ticker data, the loop finished with this batch, or
      `float()` raised after this batch had been logged. */
  datatype CycleOutcome = NoData | Finished(batch: seq<Signal>) | Raised(partial: seq<Signal>)

  /** Builds the notification text of send_batch_to_telegram with `+=`. */
  method BuildMessage(signals: seq<Signal>, fmt: Formatter) returns (message: string)
    ensures message == Message(signals, fmt)
  {
    message := Header;
    var i := 0;
    while i < |signals|
      invariant 0 <= i <= |signals|
      invariant message == Header + Concat(BlockList(signals[..i], fmt))
    {
      assert BlockList(signals[..i + 1], fmt)[..i] == BlockList(signals[..i], fmt);
      message := message + Block(signals[i], fmt);
      i := i + 1;
    }
    assert signals[..i] == signals;
  }

  /** The process state of the detector: the signal log, the pair cache and the
      notification sink. */
  class PumpDetector {
    var detectedSignals: seq<Signal>
    const universe: PairCache
    const telegram: Telegram.Sink

    constructor ()
      ensures detectedSignals == [] && fresh(universe) && fresh(telegram)
      ensures universe.cache == None && universe.fetches == 0 && telegram.sent == []
    {
      detectedSignals := [];
      universe := new PairCache();
      telegram := new Telegram.Sink();
    }

    /** send_batch_to_telegram: nothing for an empty batch, one message otherwise. */
    method SendBatchToTelegram(signals: seq<Signal>, fmt: Formatter)
      modifies telegram
      ensures telegram.sent == old(telegram.sent) + (if signals == [] then [] else [Message(signals, fmt)])
    {
      if signals == [] {
        return;
      }
      var message := BuildMessage(signals, fmt);
      telegram.SendMessage(message);
    }

    /** The row loop of detect_pumps: scores each row in order, appends every
        passing row's signal to the batch and to the log, and stops at the first
        row whose price change does not convert. */
    method ScoreRows(data: seq<Ticker>, average: real, env: Environment)
      returns (batch: seq<Signal>, raised: bool)
      requires average > 0.0
      modifies this
      ensures Collect(Judged(data, average, env)) == Scan(batch, raised)
      ensures detectedSignals == old(detectedSignals) + batch
    {
      batch := [];
      var i := 0;
      while i < |data|
        invariant 0 <= i <= |data|
        invariant Collect(Judged(data, average, env)[..i]) == Scan(batch, false)
        invariant detectedSignals == old(detectedSignals) + batch
      {
        var row := data[i];
        ghost var outcomes := Judged(data, average, env);
        assert outcomes[..i + 1][..i] == outcomes[..i];
        if row.priceChangePercent.None? {
          CollectStops(outcomes, i + 1);
          return batch, true;
        }
        var priceChange := row.priceChangePercent.value;
        var closes := FetchHistory(env.klines(row.symbol));
        var score := MarketSentiment(closes, row.volume, priceChange, average, env.talib);
        assert outcomes[i] == Judge(row, i, average, env);
        if Passes(score, priceChange) {
          var signal := Signal(row.symbol, priceChange, row.volume, score.value, Buy, env.clock(i));
          batch := batch + [signal];
          detectedSignals := detectedSignals + [signal];
        }
        i := i + 1;
      }
      assert Judged(data, average, env)[..i] == Judged(data, average, env);
      raised := false;
    }

    /** One detect_pumps cycle. */
    method DetectPumps(exchangeInfo: Fetch<seq<SymbolInfo>>, ticker: Fetch<seq<TickerRow>>,
                       env: Environment, fmt: Formatter) returns (outcome: CycleOutcome)
      requires var data := FetchTickers(ticker, PairsAfter(universe.cache, exchangeInfo));
        data != [] ==> SumVolume(data) > 0.0
      modifies this, universe, telegram
      ensures universe.cache == if old(universe.cache).Some? then old(universe.cache) else Loaded(exchangeInfo)
      ensures universe.fetches == old(universe.fetches) + if old(universe.cache).Some? then 0 else 1
      ensures var data := FetchTickers(ticker, PairsAfter(old(universe.cache), exchangeInfo));
        data == [] ==>
          outcome == NoData && detectedSignals == old(detectedSignals) && telegram.sent == old(telegram.sent)
      ensures var data := FetchTickers(ticker, PairsAfter(old(universe.cache), exchangeInfo));
        data != [] ==>
          var scan := CycleScan(data, env);
          detectedSignals == old(detectedSignals) + scan.signals &&
          outcome == (if scan.raised then Raised(scan.signals) else Finished(scan.signals)) &&
          telegram.sent == old(telegram.sent) +
            (if !scan.raised && scan.signals != [] then [Message(scan.signals, fmt)] else [])
    {
      var pairs := universe.FetchUsdtPairs(exchangeInfo);
      var data := FetchTickers(ticker, pairs);
      if data == [] {
        return NoData;
      }
      var average := MeanVolume(data);
      var batch, raised := ScoreRows(data, average, env);
      if raised {
        return Raised(batch);
      }
      if batch != [] {
        SendBatchToTelegram(batch, fmt);
      }
      outcome := Finished(batch);
    }
  }
}
