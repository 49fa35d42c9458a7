/** The numeric pre-score `preScore`: eight rules over a feature record,
    each adding points when it fires, the first one taking 10 points away
    when it does not, and the sum clamped to [0, 100]. */
module Scoring {
  import opened JsValues
  import opened Indicators
  import opened Features

  /** The scoring rules, in the order the program applies them. */
  datatype Rule =
    | AboveSma200      // price above the 200-period average
    | AboveSma50       // price above the 50-period average
    | RsiInBand        // RSI(14) strictly between 50 and 70
    | MacdAboveSignal  // MACD line above its signal line
    | NearHigh         // price within 1.5% of the window high
    | RisingSlope      // positive 50-period slope
    | VolumeSurge      // last volume more than 1.4 times the 20-period average
    | Outperforming    // positive relative strength against the benchmark

  const Rules: seq<Rule> :=
    [AboveSma200, AboveSma50, RsiInBand, MacdAboveSignal, NearHigh, RisingSlope, VolumeSurge, Outperforming]

  /** Points a rule adds when it fires. */
  function Weight(r: Rule): (w: int)
    ensures w > 0
  {
    match r
    case AboveSma200 => 20
    case AboveSma50 => 15
    case RsiInBand => 10
    case MacdAboveSignal => 10
    case NearHigh => 15
    case RisingSlope => 5
    case VolumeSurge => 10
    case Outperforming => 5
  }

  /** Whether a rule fires, with JavaScript comparison and truthiness: a zero,
      NaN, null or undefined indicator is falsy, comparisons with NaN or
      undefined are false, and null compares as 0. On numbers each rule is
      the plain comparison; the RSI, MACD and slope rules also skip an exact 0,
      and a missing price never fires a trend rule. */
  function Fires(r: Rule, f: FeatureSet): (fires: bool)
    ensures r == AboveSma200 && f.price.Num? && f.sma200.Num? ==> (fires <==> f.price.v > f.sma200.v)
    ensures r == AboveSma50 && f.price.Num? && f.sma50.Num? ==> (fires <==> f.price.v > f.sma50.v)
    ensures (r == AboveSma200 || r == AboveSma50) && (f.price.NaN? || f.price.Undefined?) ==> !fires
    ensures r == RsiInBand ==> (fires <==> f.rsi14.Num? && 50.0 < f.rsi14.v < 70.0)
    ensures r == MacdAboveSignal ==>
      (fires <==> f.macdLine.Num? && f.macdSignal.Num? && f.macdLine.v != 0.0 && f.macdSignal.v != 0.0 &&
                  f.macdLine.v > f.macdSignal.v)
    ensures r == NearHigh ==> (fires <==> f.proximityHi.Num? && f.proximityHi.v > -1.5)
    ensures r == RisingSlope ==> (fires <==> f.slope50.Num? && f.slope50.v > 0.0)
    ensures r == VolumeSurge ==> (fires <==> f.volSpike.Num? && f.volSpike.v > 1.4)
    ensures r == Outperforming ==> (fires <==> f.rs20.Num? && f.rs20.v > 0.0)
  {
    match r
    case AboveSma200 => Greater(f.price, f.sma200)
    case AboveSma50 => Greater(f.price, f.sma50)
    case RsiInBand => Truthy(f.rsi14) && Greater(f.rsi14, Num(50.0)) && Greater(Num(70.0), f.rsi14)
    case MacdAboveSignal => Truthy(f.macdLine) && Truthy(f.macdSignal) && Greater(f.macdLine, f.macdSignal)
    case NearHigh => !f.proximityHi.Null? && Greater(f.proximityHi, Num(-1.5))
    case RisingSlope => Truthy(f.slope50) && Greater(f.slope50, Num(0.0))
    case VolumeSurge => IsNumber(f.volSpike) && Greater(f.volSpike, Num(1.4))
    case Outperforming => IsNumber(f.rs20) && Greater(f.rs20, Num(0.0))
  }

  /** The points a rule contributes: its weight when it fires, and a
      10-point penalty when the price is not above the 200-period average. */
  function Contribution(r: Rule, f: FeatureSet): (c: int)
    ensures Fires(r, f) ==> c == Weight(r)
    ensures !Fires(r, f) ==> c == (if r == AboveSma200 then -10 else 0)
  {
    if Fires(r, f) then Weight(r) else if r == AboveSma200 then -10 else 0
  }

  /** The points the rules rs contribute together. */
  function Total(rs: seq<Rule>, f: FeatureSet): int
  {
    if |rs| == 0 then 0 else Contribution(rs[0], f) + Total(rs[1..], f)
  }

  function Clamp(s: int): (c: int)
    ensures 0 <= c <= 100
    ensures 0 <= s <= 100 ==> c == s
  {
    if s < 0 then 0 else if s > 100 then 100 else s
  }

  /** The pre-score of a feature record: the sum of the contributions cut
      off at 0. The sum never exceeds 90, so the clamp at 100 never binds. */
  function Score(f: FeatureSet): (s: int)
    ensures 0 <= s <= 90
    ensures Total(Rules, f) >= 0 ==> s == Total(Rules, f)
  {
    TotalRange(f);
    Clamp(Total(Rules, f))
  }

  /** `preScore`: accumulates the rules one after the other, then clamps. */
  method PreScore(f: FeatureSet) returns (s: int)
    ensures s == Score(f)
    ensures 0 <= s <= 90
  {
    s := 0;
    if Fires(AboveSma200, f) { s := s + 20; } else { s := s - 10; }
    assert s == Contribution(AboveSma200, f);
    if Fires(AboveSma50, f) { s := s + 15; }
    assert s == Contribution(AboveSma200, f) + Contribution(AboveSma50, f);
    if Fires(RsiInBand, f) { s := s + 10; }
    ghost var t := Contribution(AboveSma200, f) + Contribution(AboveSma50, f) + Contribution(RsiInBand, f);
    assert s == t;
    if Fires(MacdAboveSignal, f) { s := s + 10; }
    t := t + Contribution(MacdAboveSignal, f);
    assert s == t;
    if Fires(NearHigh, f) { s := s + 15; }
    t := t + Contribution(NearHigh, f);
    assert s == t;
    if Fires(RisingSlope, f) { s := s + 5; }
    t := t + Contribution(RisingSlope, f);
    assert s == t;
    if Fires(VolumeSurge, f) { s := s + 10; }
    t := t + Contribution(VolumeSurge, f);
    assert s == t;
    if Fires(Outperforming, f) { s := s + 5; }
    t := t + Contribution(Outperforming, f);
    assert s == t;
    ScoreOfSum(f, s);
    s := Clamp(s);
  }

  /** The unrolled sum of the eight contributions, clamped, is the score. */
  lemma ScoreOfSum(f: FeatureSet, t: int)
    requires t ==
      Contribution(AboveSma200, f) + Contribution(AboveSma50, f) + Contribution(RsiInBand, f) +
      Contribution(MacdAboveSignal, f) + Contribution(NearHigh, f) + Contribution(RisingSlope, f) +
      Contribution(VolumeSurge, f) + Contribution(Outperforming, f)
    ensures Clamp(t) == Score(f) && 0 <= Clamp(t) <= 90
  {
    ScoreUnrolled(f);
    ScoreRange(f);
  }

  // ------------------------------------------------------------------
  // Properties of the score

  /** The rule table written out: the score is the clamped sum of the eight contributions. */
  lemma ScoreUnrolled(f: FeatureSet)
    ensures Total(Rules, f) ==
      Contribution(AboveSma200, f) + Contribution(AboveSma50, f) + Contribution(RsiInBand, f) +
      Contribution(MacdAboveSignal, f) + Contribution(NearHigh, f) + Contribution(RisingSlope, f) +
      Contribution(VolumeSurge, f) + Contribution(Outperforming, f)
  {
    var tail := [RisingSlope] + ([VolumeSurge] + ([Outperforming] + []));
    TotalCons(Outperforming, [], f);
    TotalCons(VolumeSurge, [Outperforming] + [], f);
    TotalCons(RisingSlope, [VolumeSurge] + ([Outperforming] + []), f);
    TotalCons(NearHigh, tail, f);
    TotalCons(MacdAboveSignal, [NearHigh] + tail, f);
    TotalCons(RsiInBand, [MacdAboveSignal] + ([NearHigh] + tail), f);
    TotalCons(AboveSma50, [RsiInBand] + ([MacdAboveSignal] + ([NearHigh] + tail)), f);
    TotalCons(AboveSma200, [AboveSma50] + ([RsiInBand] + ([MacdAboveSignal] + ([NearHigh] + tail))), f);
    assert Rules == [AboveSma200] + ([AboveSma50] + ([RsiInBand] + ([MacdAboveSignal] + ([NearHigh] + tail))));
  }

  /** The raw sum lies between -10 (only the penalty) and 90 (every rule
      fires), so the upper clamp at 100 never binds and the score is the
      sum cut off at 0. */
  lemma ScoreRange(f: FeatureSet)
    ensures -10 <= Total(Rules, f) <= 90
    ensures Score(f) == if Total(Rules, f) < 0 then 0 else Total(Rules, f)
    ensures 0 <= Score(f) <= 90
  {
    TotalRange(f);
  }

  lemma TotalRange(f: FeatureSet)
    ensures -10 <= Total(Rules, f) <= 90
  {
    ScoreUnrolled(f);
  }

  lemma TotalCons(r: Rule, rs: seq<Rule>, f: FeatureSet)
    ensures Total([r] + rs, f) == Contribution(r, f) + Total(rs, f)
  {
    assert ([r] + rs)[1..] == rs;
  }

  /** Rule by rule, the score moves only upwards: a record on which every
      rule that fires for f fires too scores at least as much. */
  lemma {:induction false} TotalMonotone(rs: seq<Rule>, f: FeatureSet, g: FeatureSet)
    requires forall r :: Fires(r, f) ==> Fires(r, g)
    ensures Total(rs, f) <= Total(rs, g)
  {
    if |rs| > 0 {
      TotalMonotone(rs[1..], f, g);
    }
  }

  /** More rules firing never lowers the score. */
  lemma MoreSignalsScoreHigher(f: FeatureSet, g: FeatureSet)
    requires forall r :: Fires(r, f) ==> Fires(r, g)
    ensures Score(f) <= Score(g)
  {
    TotalMonotone(Rules, f, g);
  }

  /** Below the 200-period average the score is at most 60 (the 10-point
      penalty against the other rules' 70), and it is 0 when nothing else fires. */
  lemma BelowTrendScore(f: FeatureSet)
    requires !Fires(AboveSma200, f)
    ensures Score(f) <= 60
    ensures (forall r :: r != AboveSma200 ==> !Fires(r, f)) ==> Score(f) == 0
  {
    ScoreUnrolled(f);
    ScoreRange(f);
  }

  /** Records on which the same rules fire score the same. */
  lemma SameRulesSameScore(f: FeatureSet, g: FeatureSet)
    requires forall r :: Fires(r, f) <==> Fires(r, g)
    ensures Score(f) == Score(g)
  {
    TotalMonotone(Rules, f, g);
    TotalMonotone(Rules, g, f);
  }

  /** A zero RSI, MACD line, MACD signal or slope counts as missing: it
      scores exactly as null does. */
  lemma ZeroCountsAsMissing(f: FeatureSet)
    ensures Score(f.(rsi14 := Num(0.0))) == Score(f.(rsi14 := Null))
    ensures Score(f.(macdLine := Num(0.0))) == Score(f.(macdLine := Null))
    ensures Score(f.(macdSignal := Num(0.0))) == Score(f.(macdSignal := Null))
    ensures Score(f.(slope50 := Num(0.0))) == Score(f.(slope50 := Null))
  {
    SameRulesSameScore(f.(rsi14 := Num(0.0)), f.(rsi14 := Null));
    SameRulesSameScore(f.(macdLine := Num(0.0)), f.(macdLine := Null));
    SameRulesSameScore(f.(macdSignal := Num(0.0)), f.(macdSignal := Null));
    SameRulesSameScore(f.(slope50 := Num(0.0)), f.(slope50 := Null));
  }

  /** A volume spike or relative strength that is not a number, or is NaN,
      adds nothing: the score is the same as with the property missing. */
  lemma NonNumbersAddNothing(f: FeatureSet, x: Value)
    requires !x.Num?
    ensures Score(f.(volSpike := x)) == Score(f.(volSpike := Undefined))
    ensures Score(f.(rs20 := x)) == Score(f.(rs20 := Undefined))
  {
    SameRulesSameScore(f.(volSpike := x), f.(volSpike := Undefined));
    SameRulesSameScore(f.(rs20 := x), f.(rs20 := Undefined));
  }

  /** Score bounds from single rules: without relative strength at most 85,
      without a volume spike as well at most 75; with the two trend rules and
      the near-high rule at least 50. */
  lemma ScoreByRules(f: FeatureSet)
    ensures !Fires(Outperforming, f) ==> Score(f) <= 85
    ensures !Fires(Outperforming, f) && !Fires(VolumeSurge, f) ==> Score(f) <= 75
    ensures Fires(AboveSma200, f) && Fires(AboveSma50, f) && Fires(NearHigh, f) ==> Score(f) >= 50
  {
    ScoreUnrolled(f);
    ScoreRange(f);
  }

  /** The rules the bounds above depend on, read off the record's fields. */
  lemma FiringFromFields(f: FeatureSet)
    ensures Fires(AboveSma200, f) <==> Greater(f.price, f.sma200)
    ensures Fires(AboveSma50, f) <==> Greater(f.price, f.sma50)
    ensures Fires(NearHigh, f) <==> !f.proximityHi.Null? && Greater(f.proximityHi, Num(-1.5))
    ensures Fires(VolumeSurge, f) <==> IsNumber(f.volSpike) && Greater(f.volSpike, Num(1.4))
    ensures Fires(Outperforming, f) <==> IsNumber(f.rs20) && Greater(f.rs20, Num(0.0))
  {
  }

  /** On the builders' records the relative-strength rule never fires, so a
      stock scores at most 85 and a crypto pair, which has no volume spike
      either, at most 75. */
  lemma BuiltRecordsScoreCap(closes: seq<real>, highs: seq<real>, lows: seq<real>, vols: seq<real>,
                             bench: Option<seq<real>>, sqrt: real -> real)
    ensures Score(StockFeatures(closes, highs, lows, vols, bench, sqrt)) <= 85
    ensures Score(CryptoFeatures(closes, bench, sqrt)) <= 75
  {
    var s := StockFeatures(closes, highs, lows, vols, bench, sqrt);
    var c := CryptoFeatures(closes, bench, sqrt);
    BuiltRelativeStrength(closes, highs, lows, vols, bench, sqrt);
    RelativeStrengthAsWrittenLosesValue(closes, bench);
    FiringFromFields(s);
    FiringFromFields(c);
    ScoreByRules(s);
    ScoreByRules(c);
  }

  /** The mean of a strictly increasing series of two or more values is
      below its last value. */
  lemma AvgBelowLast(a: seq<real>)
    requires |a| >= 2 && StrictlyIncreasing(a)
    ensures Avg(a) < a[|a| - 1]
  {
    var n := |a|;
    var init, prev, last := a[..n - 1], a[n - 2], a[n - 1];
    assert prev < last;
    assert forall i :: 0 <= i < |init| ==> init[i] <= prev by {
      forall i | 0 <= i < |init| ensures init[i] <= prev {
        assert init[i] == a[i];
        assert i == n - 2 || a[i] < a[n - 2];
      }
    }
    SumAtMost(init, prev);
    assert a == init + [last];
    assert Sum(a) == Sum(init) + last;
    var k := (n - 1) as real;
    MulPositive(k, last - prev);
    assert k * (last - prev) == k * last - k * prev;
    assert Sum(a) < k * last + last;
    assert k * last + last == (n as real) * last;
    QuotientBelow(Sum(a), n as real, last);
  }

  lemma QuotientBelow(x: real, n: real, hi: real)
    requires n > 0.0 && x < n * hi
    ensures x / n < hi
  {
  }

  /** The largest value of a series that never falls is its last value. */
  lemma HighestOfRising(s: seq<real>)
    requires |s| > 0 && NonDecreasing(s)
    ensures Highest(s) == s[|s| - 1]
  {
    var j :| 0 <= j < |s| && s[j] == Highest(s);
    assert s[j] <= s[|s| - 1];
  }

  /** On a strictly increasing series of two or more values both moving
      averages lie below the last value, which is the window high. */
  lemma RisingSeriesLevels(recent: seq<real>)
    requires |recent| >= 2 && StrictlyIncreasing(recent)
    ensures Sma(recent, 200) < recent[|recent| - 1]
    ensures Sma(recent, 50) < recent[|recent| - 1]
    ensures Highest(recent) == recent[|recent| - 1]
  {
    SmaBelowLast(recent, 200);
    SmaBelowLast(recent, 50);
    HighestOfRising(recent);
  }

  lemma SmaBelowLast(recent: seq<real>, n: nat)
    requires |recent| >= 2 && n >= 2 && StrictlyIncreasing(recent)
    ensures Sma(recent, n) < recent[|recent| - 1]
  {
    SuffixStrictlyIncreasing(recent, n);
    AvgBelowLast(Tail(recent, n));
  }

  lemma AboveAverageFires(f: FeatureSet, r: Rule, last: real, sma: real)
    requires r == AboveSma200 || r == AboveSma50
    requires f.price == Num(last) && sma < last
    requires r == AboveSma200 ==> f.sma200 == Num(sma)
    requires r == AboveSma50 ==> f.sma50 == Num(sma)
    ensures Fires(r, f)
  {
  }

  lemma AtHighFires(f: FeatureSet, recent: seq<real>)
    requires |recent| > 0 && f.proximityHi == ProximityHigh(recent)
    requires Highest(recent) == recent[|recent| - 1]
    ensures Fires(NearHigh, f)
  {
    var last := recent[|recent| - 1];
    assert Pct(last, last) == 0.0;
  }

  /** A record whose price, moving averages and proximity come from the last
      220 of a strictly increasing history of two or more closes scores at least 50. */
  lemma RisingWindowScoresAtLeast50(f: FeatureSet, closes: seq<real>)
    requires |closes| >= 2 && StrictlyIncreasing(closes)
    requires var recent := Tail(closes, Window);
      f.price == LastValue(recent) && f.proximityHi == ProximityHigh(recent) &&
      f.sma200 == Num(Sma(recent, 200)) && f.sma50 == Num(Sma(recent, 50))
    ensures Score(f) >= 50
  {
    var recent := Tail(closes, Window);
    var last := recent[|recent| - 1];
    SuffixStrictlyIncreasing(closes, Window);
    RisingSeriesLevels(recent);
    AboveAverageFires(f, AboveSma200, last, Sma(recent, 200));
    AboveAverageFires(f, AboveSma50, last, Sma(recent, 50));
    AtHighFires(f, recent);
    ScoreByRules(f);
  }

  /** On a strictly increasing history of two or more closes the price is
      above both moving averages and at the window high, so both builders'
      records score at least 50. */
  lemma RisingSeriesScoresAtLeast50(closes: seq<real>, highs: seq<real>, lows: seq<real>, vols: seq<real>,
                                    bench: Option<seq<real>>, sqrt: real -> real)
    requires |closes| >= 2 && StrictlyIncreasing(closes)
    ensures Score(CryptoFeatures(closes, bench, sqrt)) >= 50
    ensures Score(StockFeatures(closes, highs, lows, vols, bench, sqrt)) >= 50
  {
    WindowFields(closes, highs, lows, vols, bench, sqrt);
    RisingWindowScoresAtLeast50(CryptoFeatures(closes, bench, sqrt), closes);
    RisingWindowScoresAtLeast50(StockFeatures(closes, highs, lows, vols, bench, sqrt), closes);
  }

  /** With the relative strength computed as intended, the outperformance
      rule fires exactly when the instrument's 20-period percentage return
      beats the benchmark's. */
  lemma OutperformingOnIntendedStrength(f: FeatureSet, recent: seq<real>, bench: Option<seq<real>>)
    requires f.rs20 == RelativeStrength(recent, bench)
    ensures Fires(Outperforming, f) <==>
      RelativeStrength(recent, bench).Num? &&
      Pct(recent[|recent| - 1], recent[|recent| - 21]) >
      Pct(bench.value[|bench.value| - 1], bench.value[|bench.value| - 21])
  {
    FiringFromFields(f);
    if RelativeStrength(recent, bench).Num? {
      RelativeStrengthComparesReturns(recent, bench);
    }
  }

  /** The corrected builders reward outperformance of the benchmark, which
      the builders as written never do. */
  lemma CorrectedRecordsRewardOutperformance(closes: seq<real>, highs: seq<real>, lows: seq<real>, vols: seq<real>,
                                             bench: Option<seq<real>>, sqrt: real -> real)
    ensures var recent := Tail(closes, Window);
      var rs := RelativeStrength(recent, bench);
      var beats := rs.Num? &&
        Pct(recent[|recent| - 1], recent[|recent| - 21]) >
        Pct(bench.value[|bench.value| - 1], bench.value[|bench.value| - 21]);
      (Fires(Outperforming, CorrectedCryptoFeatures(closes, bench, sqrt)) <==> beats) &&
      (Fires(Outperforming, CorrectedStockFeatures(closes, highs, lows, vols, bench, sqrt)) <==> beats)
  {
    var recent := Tail(closes, Window);
    var c := CorrectedCryptoFeatures(closes, bench, sqrt);
    var s := CorrectedStockFeatures(closes, highs, lows, vols, bench, sqrt);
    assert c.rs20 == RelativeStrength(recent, bench);
    assert s.rs20 == RelativeStrength(recent, bench);
    OutperformingOnIntendedStrength(c, recent, bench);
    OutperformingOnIntendedStrength(s, recent, bench);
  }
}
