/** The feature builders `stockFeatures` and `cryptoFeatures`, taken after the
    numeric values have been filtered out of the market-data response. The two
    builders compute the same trend features from the last 220 closes; the
    stock builder adds `atr14` and `volSpike`. */
module Features {
  import opened JsValues
  import opened Indicators

  /** The feature record. A crypto record has no `atr14` and no `volSpike`
      property, so reading them gives undefined. */
  datatype FeatureSet = FeatureSet(
    price: Value, sma20: Value, sma50: Value, sma200: Value,
    macdLine: Value, macdSignal: Value, rsi14: Value, atr14: Value,
    bbUpper: Value, bbLower: Value, proximityHi: Value, proximityLo: Value,
    volSpike: Value, slope50: Value, rs20: Value)

  /** How many of the latest closes the trend features look at. */
  const Window: nat := 220

  /** `s.at(-1)`: undefined for the empty list. */
  function LastValue(s: seq<real>): (r: Value)
    ensures r.Undefined? <==> |s| == 0
    ensures |s| > 0 ==> r == Num(s[|s| - 1])
  {
    if |s| == 0 then Undefined else Num(s[|s| - 1])
  }

  /** `ema12v.map((v,i) => v - ema26v[i])`. */
  function MacdSeries(recent: seq<real>): (m: seq<real>)
    ensures |m| == |recent|
  {
    var fast, slow := Ema(recent, Smoothing(12)), Ema(recent, Smoothing(26));
    seq(|recent|, i requires 0 <= i < |recent| => fast[i] - slow[i])
  }

  /** `pct(price, max)`; NaN for an empty window (undefined price against -Infinity). */
  function ProximityHigh(recent: seq<real>): Value
  {
    if |recent| == 0 then NaN else Num(Pct(recent[|recent| - 1], Highest(recent)))
  }

  /** `pct(price, min)`; NaN for an empty window (undefined price against Infinity). */
  function ProximityLow(recent: seq<real>): Value
  {
    if |recent| == 0 then NaN else Num(Pct(recent[|recent| - 1], Lowest(recent)))
  }

  /** `avg(vols.slice(-20))`: the mean of the last 20 volumes. */
  function Vol20(vols: seq<real>): real
  {
    Avg(Tail(vols, 20))
  }

  /** `vols.at(-1) && vol20 ? vols.at(-1)/vol20 : null`. */
  function VolumeSpike(vols: seq<real>): (r: Value)
    ensures r.Null? || r.Num?
    ensures r.Num? <==> |vols| > 0 && vols[|vols| - 1] != 0.0 && Vol20(vols) != 0.0
    ensures r.Num? ==> r.v != 0.0 && r.v * Vol20(vols) == vols[|vols| - 1]
  {
    var last, vol20 := LastValue(vols), Vol20(vols);
    if Truthy(last) && vol20 != 0.0 then Num(last.v / vol20) else Null
  }

  /** The relative-strength branch as written: it divides by `recent[-21]`,
      a property JavaScript arrays do not have, so whenever the branch runs
      the quotient, and with it rs20, is NaN; otherwise rs20 stays null. */
  function RelativeStrengthAsWritten(recent: seq<real>, bench: Option<seq<real>>): (rs: Value)
    ensures rs == Null || rs == NaN
    ensures bench.None? || |recent| <= 20 ==> rs == Null
  {
    if bench.Some? && |bench.value| > 20 && |recent| > 20 then NaN else Null
  }

  /** The relative strength the branch evidently intends: the instrument's
      ratio of the last close to the close 20 periods earlier (the 21st value
      from the end), minus the benchmark's; unavailable (null) when either
      series is shorter than 21 points or either base is 0. */
  function RelativeStrength(recent: seq<real>, bench: Option<seq<real>>): (rs: Value)
    ensures rs.Num? || rs.Null?
    ensures rs.Num? <==> bench.Some? && |bench.value| > 20 && |recent| > 20 &&
                         recent[|recent| - 21] != 0.0 && bench.value[|bench.value| - 21] != 0.0
  {
    if bench.Some? && |bench.value| > 20 && |recent| > 20 then
      var b := bench.value;
      var a0, b0 := recent[|recent| - 21], b[|b| - 21];
      if a0 == 0.0 || b0 == 0.0 then Null
      else Num(recent[|recent| - 1] / a0 - b[|b| - 1] / b0)
    else Null
  }

  /** The n-period simple moving average `avg(recent.slice(-n))`. */
  function Sma(recent: seq<real>, n: nat): real
  {
    Avg(Tail(recent, n))
  }

  /** The last value of the MACD series (undefined for no closes). */
  function MacdLine(recent: seq<real>): Value
  {
    LastValue(MacdSeries(recent))
  }

  /** The last value of the 9-period EMA of the last 35 MACD values. */
  function MacdSignal(recent: seq<real>): Value
  {
    LastValue(Ema(Tail(MacdSeries(recent), 35), Smoothing(9)))
  }

  /** The Bollinger band `sma20 + k*std20`, with `sqrt` as the square root under `std`. */
  function Band(recent: seq<real>, sqrt: real -> real, k: real): real
  {
    Sma(recent, 20) + k * sqrt(Variance(Tail(recent, 20)))
  }

  /** The features both builders compute from the latest closes `recent`;
      `sqrt` is the square root under `std`, which is not modelled. */
  function TrendFeatures(recent: seq<real>, bench: Option<seq<real>>, sqrt: real -> real): FeatureSet
  {
    FeatureSet(
      price := LastValue(recent),
      sma20 := Num(Sma(recent, 20)),
      sma50 := Num(Sma(recent, 50)),
      sma200 := Num(Sma(recent, 200)),
      macdLine := MacdLine(recent),
      macdSignal := MacdSignal(recent),
      rsi14 := Num(RsiOf(recent, 14)),
      atr14 := Undefined,
      bbUpper := Num(Band(recent, sqrt, 2.0)),
      bbLower := Num(Band(recent, sqrt, -2.0)),
      proximityHi := ProximityHigh(recent),
      proximityLo := ProximityLow(recent),
      volSpike := Undefined,
      slope50 := Num(LeastSquaresSlope(Tail(Tail(recent, 60), 60))),
      rs20 := RelativeStrengthAsWritten(recent, bench))
  }

  /** `cryptoFeatures` over the finite closes of the klines, with the BTC benchmark. */
  function CryptoFeatures(closes: seq<real>, benchBtc: Option<seq<real>>, sqrt: real -> real): (f: FeatureSet)
    ensures f.price == LastValue(closes)
    ensures f.atr14 == Undefined && f.volSpike == Undefined
  {
    TrendFeatures(Tail(closes, Window), benchBtc, sqrt)
  }

  /** The stock ATR(14) over the last 221 bars; null when there are no highs or no lows. */
  function StockAtr(closes: seq<real>, highs: seq<real>, lows: seq<real>): (a: Value)
    ensures a == Null <==> |highs| == 0 || |lows| == 0
  {
    if |highs| > 0 && |lows| > 0
    then AtrOf(Tail(highs, Window + 1), Tail(lows, Window + 1), Tail(closes, Window + 1), 14)
    else Null
  }

  /** `stockFeatures` over the numeric closes, highs, lows and volumes of the
      chart, with the SPY benchmark. */
  function StockFeatures(closes: seq<real>, highs: seq<real>, lows: seq<real>, vols: seq<real>,
                         benchSpy: Option<seq<real>>, sqrt: real -> real): (f: FeatureSet)
    ensures f.price == LastValue(closes)
    ensures f.atr14 == Null <==> |highs| == 0 || |lows| == 0
    ensures f.volSpike == VolumeSpike(vols)
  {
    TrendFeatures(Tail(closes, Window), benchSpy, sqrt)
      .(atr14 := StockAtr(closes, highs, lows), volSpike := VolumeSpike(vols))
  }

  /** The crypto record with the relative strength the program evidently intends. */
  function CorrectedCryptoFeatures(closes: seq<real>, benchBtc: Option<seq<real>>, sqrt: real -> real): FeatureSet
  {
    CryptoFeatures(closes, benchBtc, sqrt).(rs20 := RelativeStrength(Tail(closes, Window), benchBtc))
  }

  /** The stock record with the relative strength the program evidently intends. */
  function CorrectedStockFeatures(closes: seq<real>, highs: seq<real>, lows: seq<real>, vols: seq<real>,
                                  benchSpy: Option<seq<real>>, sqrt: real -> real): (f: FeatureSet)
    ensures f.price == LastValue(closes)
    ensures f.atr14 == Null <==> |highs| == 0 || |lows| == 0
    ensures f.volSpike == VolumeSpike(vols)
  {
    StockFeatures(closes, highs, lows, vols, benchSpy, sqrt).(rs20 := RelativeStrength(Tail(closes, Window), benchSpy))
  }

  // ------------------------------------------------------------------
  // Properties of the builders

  /** The trend fields of the shared record, read off its definition. */
  lemma TrendFieldsAt(recent: seq<real>, bench: Option<seq<real>>, sqrt: real -> real)
    ensures var f := TrendFeatures(recent, bench, sqrt);
      f.price == LastValue(recent) && f.sma200 == Num(Sma(recent, 200)) &&
      f.sma50 == Num(Sma(recent, 50)) && f.sma20 == Num(Sma(recent, 20)) &&
      f.proximityHi == ProximityHigh(recent)
  {
  }

  /** In both builders the 20-, 50- and 200-period averages are the means of
      the last 20, 50 and 200 closes, however long the history. */
  lemma BuiltAveragesUseLastCloses(closes: seq<real>, highs: seq<real>, lows: seq<real>, vols: seq<real>,
                                   bench: Option<seq<real>>, sqrt: real -> real)
    ensures var c := CryptoFeatures(closes, bench, sqrt);
      c.sma200 == Num(Avg(Tail(closes, 200))) && c.sma50 == Num(Avg(Tail(closes, 50))) &&
      c.sma20 == Num(Avg(Tail(closes, 20)))
    ensures var s := StockFeatures(closes, highs, lows, vols, bench, sqrt);
      s.sma200 == Num(Avg(Tail(closes, 200))) && s.sma50 == Num(Avg(Tail(closes, 50))) &&
      s.sma20 == Num(Avg(Tail(closes, 20)))
  {
    TailOfTail(closes, Window, 200);
    TailOfTail(closes, Window, 50);
    TailOfTail(closes, Window, 20);
    TrendFieldsAt(Tail(closes, Window), bench, sqrt);
  }

  /** Both builders take the price, the moving averages and the proximity to
      the high from the last 220 closes. */
  lemma WindowFields(closes: seq<real>, highs: seq<real>, lows: seq<real>, vols: seq<real>,
                     bench: Option<seq<real>>, sqrt: real -> real)
    ensures var recent, c := Tail(closes, Window), CryptoFeatures(closes, bench, sqrt);
      c.price == LastValue(recent) && c.proximityHi == ProximityHigh(recent) &&
      c.sma200 == Num(Sma(recent, 200)) && c.sma50 == Num(Sma(recent, 50))
    ensures var recent, s := Tail(closes, Window), StockFeatures(closes, highs, lows, vols, bench, sqrt);
      s.price == LastValue(recent) && s.proximityHi == ProximityHigh(recent) &&
      s.sma200 == Num(Sma(recent, 200)) && s.sma50 == Num(Sma(recent, 50))
  {
    TrendFieldsAt(Tail(closes, Window), bench, sqrt);
  }

  /** A stock record and a crypto record built from the same closes and
      benchmark agree on every feature but the two only stocks have. */
  lemma StockExtendsCrypto(closes: seq<real>, highs: seq<real>, lows: seq<real>, vols: seq<real>,
                           bench: Option<seq<real>>, sqrt: real -> real)
    ensures var s := StockFeatures(closes, highs, lows, vols, bench, sqrt);
      s.(atr14 := Undefined, volSpike := Undefined) == CryptoFeatures(closes, bench, sqrt)
  {
  }

  /** A crypto record depends only on the last 220 closes. */
  lemma CryptoUsesLast220(closes: seq<real>, bench: Option<seq<real>>, sqrt: real -> real)
    ensures CryptoFeatures(closes, bench, sqrt) == CryptoFeatures(Tail(closes, Window), bench, sqrt)
  {
    TailOfTail(closes, Window, Window);
  }

  /** A stock record depends only on the last 221 closes: 220 for the trend
      features and one more for the ATR's first previous close. */
  lemma StockUsesLast221(closes: seq<real>, highs: seq<real>, lows: seq<real>, vols: seq<real>,
                         bench: Option<seq<real>>, sqrt: real -> real)
    ensures StockFeatures(closes, highs, lows, vols, bench, sqrt) ==
            StockFeatures(Tail(closes, Window + 1), highs, lows, vols, bench, sqrt)
  {
    var c := Tail(closes, Window + 1);
    TailOfTail(closes, Window + 1, Window);
    TailOfTail(closes, Window + 1, Window + 1);
    assert StockAtr(c, highs, lows) == StockAtr(closes, highs, lows);
    assert TrendFeatures(Tail(c, Window), bench, sqrt) == TrendFeatures(Tail(closes, Window), bench, sqrt);
  }

  /** Both builders report the relative strength as written, and it does not
      depend on how many of more than 20 closes there are. */
  lemma BuiltRelativeStrength(closes: seq<real>, highs: seq<real>, lows: seq<real>, vols: seq<real>,
                              bench: Option<seq<real>>, sqrt: real -> real)
    ensures CryptoFeatures(closes, bench, sqrt).rs20 == RelativeStrengthAsWritten(closes, bench)
    ensures StockFeatures(closes, highs, lows, vols, bench, sqrt).rs20 == RelativeStrengthAsWritten(closes, bench)
  {
    assert RelativeStrengthAsWritten(Tail(closes, Window), bench) == RelativeStrengthAsWritten(closes, bench);
    StockExtendsCrypto(closes, highs, lows, vols, bench, sqrt);
  }

  /** As written, the relative strength never compares above 0, and it is
      NaN wherever the intended value is a number. */
  lemma RelativeStrengthAsWrittenLosesValue(recent: seq<real>, bench: Option<seq<real>>)
    ensures !Greater(RelativeStrengthAsWritten(recent, bench), Num(0.0))
    ensures RelativeStrength(recent, bench).Num? ==> RelativeStrengthAsWritten(recent, bench) == NaN
  {
  }

  /** An instrument that doubled over 20 periods against a flat benchmark:
      the intended relative strength is 1 and positive, the written one NaN. */
  lemma RelativeStrengthCounterexample()
    ensures var recent := seq(21, i requires 0 <= i < 21 => if i == 20 then 2.0 else 1.0);
            var bench := Some(seq(21, i requires 0 <= i < 21 => 1.0));
            RelativeStrength(recent, bench) == Num(1.0) &&
            Greater(RelativeStrength(recent, bench), Num(0.0)) &&
            RelativeStrengthAsWritten(recent, bench) == NaN
  {
    var recent := seq(21, i requires 0 <= i < 21 => if i == 20 then 2.0 else 1.0);
    assert recent[0] == 1.0 && recent[20] == 2.0;
  }

  /** The intended relative strength is positive exactly when the instrument's
      20-period percentage return beats the benchmark's. */
  lemma RelativeStrengthComparesReturns(recent: seq<real>, bench: Option<seq<real>>)
    requires RelativeStrength(recent, bench).Num?
    ensures var b := bench.value;
      Greater(RelativeStrength(recent, bench), Num(0.0)) <==>
      Pct(recent[|recent| - 1], recent[|recent| - 21]) > Pct(b[|b| - 1], b[|b| - 21])
  {
    var b := bench.value;
    var a0, a1, b0, b1 := recent[|recent| - 21], recent[|recent| - 1], b[|b| - 21], b[|b| - 1];
    PctOfRatio(a1, a0);
    PctOfRatio(b1, b0);
  }

  /** With a non-negative square root the Bollinger bands bracket the 20-period mean. */
  lemma BandsBracketMean(recent: seq<real>, sqrt: real -> real)
    requires forall x :: 0.0 <= x ==> 0.0 <= sqrt(x)
    ensures Band(recent, sqrt, -2.0) <= Sma(recent, 20) <= Band(recent, sqrt, 2.0)
  {
    VarianceNonNegative(Tail(recent, 20));
  }

  /** The price is never above the window's high, so against a positive high
      the proximity to it is at most 0; against a positive low the proximity
      to it is at least 0. Both are NaN for an empty window. */
  lemma ProximityBounds(recent: seq<real>)
    ensures |recent| == 0 ==> ProximityHigh(recent) == NaN && ProximityLow(recent) == NaN
    ensures |recent| > 0 ==> ProximityHigh(recent).Num? && ProximityLow(recent).Num?
    ensures |recent| > 0 && Highest(recent) > 0.0 ==> ProximityHigh(recent).v <= 0.0
    ensures |recent| > 0 && Lowest(recent) > 0.0 ==> ProximityLow(recent).v >= 0.0
  {
    if |recent| > 0 {
      var price := recent[|recent| - 1];
      PctSign(price, Highest(recent));
      PctSign(price, Lowest(recent));
    }
  }

  /** The last n values of a strictly increasing series are strictly increasing. */
  lemma SuffixStrictlyIncreasing(s: seq<real>, n: nat)
    requires StrictlyIncreasing(s)
    ensures StrictlyIncreasing(Tail(s, n)) && NonDecreasing(Tail(s, n))
    ensures |Tail(s, n)| > 0 ==> Tail(s, n)[|Tail(s, n)| - 1] == s[|s| - 1]
  {
    var t := Tail(s, n);
    var d := |s| - |t|;
    assert forall i :: 0 <= i < |t| ==> t[i] == s[d + i];
  }

  /** On a strictly increasing series of two or more closes the MACD line
      (the 12-period EMA minus the 26-period EMA) is positive. */
  lemma RisingSeriesMacdPositive(recent: seq<real>)
    requires |recent| >= 2 && StrictlyIncreasing(recent)
    ensures Greater(MacdLine(recent), Num(0.0))
  {
    var n := |recent|;
    FastEmaLeadsOnRisingSeries(recent, Smoothing(12), Smoothing(26));
    assert MacdSeries(recent)[n - 1] == Ema(recent, Smoothing(12))[n - 1] - Ema(recent, Smoothing(26))[n - 1];
  }
}
