/** What the Fear & Greed calculator promises: its guard, the range of every factor, the smoothing and the labels. */
module MarketIndexProperties {
  import opened Wrappers
  import opened Prices
  import opened MarketIndices

  // ---------------------------------------------------------------------------
  // Rolling extremes

  lemma {:induction false} LargestFacts(xs: seq<real>)
    requires |xs| > 0
    ensures forall k :: 0 <= k < |xs| ==> xs[k] <= Largest(xs)
    ensures exists k :: 0 <= k < |xs| && xs[k] == Largest(xs)
  {
    if |xs| > 1 {
      var prefix := xs[..|xs| - 1];
      LargestFacts(prefix);
      assert forall k :: 0 <= k < |prefix| ==> prefix[k] == xs[k];
      if xs[|xs| - 1] <= Largest(prefix) {
        var k :| 0 <= k < |prefix| && prefix[k] == Largest(prefix);
        assert xs[k] == Largest(xs);
      } else {
        assert xs[|xs| - 1] == Largest(xs);
      }
    } else {
      assert xs[0] == Largest(xs);
    }
  }

  lemma {:induction false} SmallestFacts(xs: seq<real>)
    requires |xs| > 0
    ensures forall k :: 0 <= k < |xs| ==> Smallest(xs) <= xs[k]
    ensures exists k :: 0 <= k < |xs| && xs[k] == Smallest(xs)
  {
    if |xs| > 1 {
      var prefix := xs[..|xs| - 1];
      SmallestFacts(prefix);
      assert forall k :: 0 <= k < |prefix| ==> prefix[k] == xs[k];
      if xs[|xs| - 1] >= Smallest(prefix) {
        var k :| 0 <= k < |prefix| && prefix[k] == Smallest(prefix);
        assert xs[k] == Smallest(xs);
      } else {
        assert xs[|xs| - 1] == Smallest(xs);
      }
    } else {
      assert xs[0] == Smallest(xs);
    }
  }

  /** The rolling maximum is the largest value of its window, so it is at least the current value. */
  lemma RollingMaxFacts(xs: seq<real>, t: nat, w: nat)
    requires t < |xs| && w > 0
    ensures forall k :: WindowStart(t, w) <= k <= t ==> xs[k] <= RollingMax(xs, t, w)
    ensures exists k :: WindowStart(t, w) <= k <= t && xs[k] == RollingMax(xs, t, w)
    ensures xs[t] <= RollingMax(xs, t, w)
  {
    var lo := WindowStart(t, w);
    var window := xs[lo..t + 1];
    LargestFacts(window);
    assert forall k :: lo <= k <= t ==> xs[k] == window[k - lo];
    var j :| 0 <= j < |window| && window[j] == Largest(window);
    assert xs[lo + j] == RollingMax(xs, t, w);
  }

  /** The rolling minimum is the smallest value of its window, so it is at most the current value. */
  lemma RollingMinFacts(xs: seq<real>, t: nat, w: nat)
    requires t < |xs| && w > 0
    ensures forall k :: WindowStart(t, w) <= k <= t ==> RollingMin(xs, t, w) <= xs[k]
    ensures exists k :: WindowStart(t, w) <= k <= t && xs[k] == RollingMin(xs, t, w)
    ensures RollingMin(xs, t, w) <= xs[t]
  {
    var lo := WindowStart(t, w);
    var window := xs[lo..t + 1];
    SmallestFacts(window);
    assert forall k :: lo <= k <= t ==> xs[k] == window[k - lo];
    var j :| 0 <= j < |window| && window[j] == Smallest(window);
    assert xs[lo + j] == RollingMin(xs, t, w);
  }

  /** The 52-week high is at least the day's high and the 52-week low at most the day's low. */
  lemma YearRangeContainsDay(bars: seq<Bar>, t: nat)
    requires t < |bars|
    ensures bars[t].high <= RollingMax(Highs(bars), t, YearWindow)
    ensures RollingMin(Lows(bars), t, YearWindow) <= bars[t].low
  {
    RollingMaxFacts(Highs(bars), t, YearWindow);
    RollingMinFacts(Lows(bars), t, YearWindow);
  }

  // ---------------------------------------------------------------------------
  // The factors

  lemma RelativeSign(x: real, base: real)
    requires base > 0.0
    ensures x >= base <==> Relative(x, base) >= 0.0
    ensures x <= base <==> Relative(x, base) <= 0.0
  {
    assert Relative(x, base) * base == x - base;
  }

  /** A close at or above its 125-row mean scores at least 50 for momentum, one at or below it at most 50. */
  lemma MomentumMidpoint(bars: seq<Bar>, t: nat)
    requires WellFormed(bars) && t < |bars|
    ensures var ma := RollingMean(Closes(bars), t, MomentumWindow);
      && (bars[t].close >= ma ==> MomentumNorm(bars, t) >= 50.0)
      && (bars[t].close <= ma ==> MomentumNorm(bars, t) <= 50.0)
  {
    var ma := RollingMean(Closes(bars), t, MomentumWindow);
    MeanPositive(Closes(bars), t, MomentumWindow);
    RelativeSign(bars[t].close, ma);
  }

  /** The strength indicator takes only the values -100, 0 and 100, which its rescaling maps to 0, 50 and 100. */
  lemma StrengthValues(bars: seq<Bar>, t: nat)
    requires t < |bars|
    ensures Strength(bars, t) == -100 || Strength(bars, t) == 0 || Strength(bars, t) == 100
    ensures Strength(bars, t) == -100 <==> StrengthNorm(bars, t) == 0.0
    ensures Strength(bars, t) == 0 <==> StrengthNorm(bars, t) == 50.0
    ensures Strength(bars, t) == 100 <==> StrengthNorm(bars, t) == 100.0
  {
  }

  lemma QuotientSign(a: real, b: real)
    requires b > 0.0
    ensures a >= 0.0 <==> a / b >= 0.0
    ensures a <= 0.0 <==> a / b <= 0.0
  {
    assert (a / b) * b == a;
  }

  /**
   * Averaged advancing volume at least the averaged declining volume scores at
   * least 45 for breadth; at most, at most 45.
   */
  lemma BreadthMidpoint(bars: seq<Bar>, t: nat)
    requires WellFormed(bars) && t < |bars|
    ensures var ema19 := EwmLast(Advances(bars)[..t + 1], Alpha(19));
      var ema39 := EwmLast(Declines(bars)[..t + 1], Alpha(39));
      && (ema19 >= ema39 ==> BreadthNorm(bars, t) >= 45.0)
      && (ema19 <= ema39 ==> BreadthNorm(bars, t) <= 45.0)
  {
    var ema19 := EwmLast(Advances(bars)[..t + 1], Alpha(19));
    var ema39 := EwmLast(Declines(bars)[..t + 1], Alpha(39));
    DeclinesNonNegative(bars, t);
    QuotientSign(ema19 - ema39, ema39 + 0.000001);
  }

  /** The options factor is NaN for the first five rows only and lies in [0, 100] elsewhere. */
  lemma OptionsFacts(bars: seq<Bar>, t: nat)
    requires WellFormed(bars) && t < |bars|
    ensures OptionsNorm(bars, t).None? <==> t < 5
    ensures OptionsNorm(bars, t).Some? ==> 0.0 <= OptionsNorm(bars, t).value <= 100.0
  {
  }

  /** The junk-bond factor is NaN exactly where the volatility is; a lower volatility never scores lower. */
  lemma JunkBondFacts(v1: Option<real>, v2: Option<real>)
    ensures JunkBondNorm(v1).None? <==> v1.None?
    ensures JunkBondNorm(v1).Some? ==> 0.0 <= JunkBondNorm(v1).value <= 100.0
    ensures v1.Some? && v1.value <= 0.0 ==> JunkBondNorm(v1) == Some(100.0)
    ensures v1.Some? && v1.value >= 50.0 ==> JunkBondNorm(v1) == Some(0.0)
    ensures v1.Some? && v2.Some? && v1.value <= v2.value ==> JunkBondNorm(v2).value <= JunkBondNorm(v1).value
  {
  }

  // ---------------------------------------------------------------------------
  // The composite

  /** The equal-weight mean of seven factors: NaN when any is, and within [0, 100] when all are. */
  lemma CombineFacts(f: seq<Option<real>>)
    requires |f| == 7
    ensures Combine(f).None? <==> f[0].None? || f[1].None? || f[2].None? || f[3].None? || f[4].None? || f[5].None? || f[6].None?
    ensures Combine(f).Some? ==>
      Combine(f).value == (f[0].value + f[1].value + f[2].value + f[3].value + f[4].value + f[5].value + f[6].value) / 7.0
    ensures Combine(f).Some? && (forall i :: 0 <= i < 7 ==> 0.0 <= f[i].value <= 100.0) ==> 0.0 <= Combine(f).value <= 100.0
  {
    if f[0].None? || f[1].None? || f[2].None? || f[3].None? || f[4].None? || f[5].None? || f[6].None? {
      assert exists i :: 0 <= i < 7 && f[i].None?;
    }
  }

  /**
   * The composite is NaN exactly on the first five rows and where the volatility
   * or the RSI is; elsewhere it is the mean of the seven factors, with the
   * junk-bond factor counted twice, and it lies in [0, 100] when the RSI does.
   */
  lemma CompositeFacts(bars: seq<Bar>, rsi: Series, volatility: Series, t: nat)
    requires WellFormed(bars) && |rsi| == |bars| && |volatility| == |bars| && t < |bars|
    ensures Composite(bars, rsi, volatility)[t].None? <==> t < 5 || volatility[t].None? || rsi[t].None?
    ensures Composite(bars, rsi, volatility)[t].Some? ==>
      Composite(bars, rsi, volatility)[t].value
        == (MomentumNorm(bars, t) + StrengthNorm(bars, t) + BreadthNorm(bars, t) + OptionsNorm(bars, t).value
            + 2.0 * JunkBondNorm(volatility[t]).value + rsi[t].value) / 7.0
    ensures Composite(bars, rsi, volatility)[t].Some? && 0.0 <= rsi[t].value <= 100.0 ==>
      0.0 <= Composite(bars, rsi, volatility)[t].value <= 100.0
  {
    var f := Factors(bars, rsi, volatility, t);
    assert Composite(bars, rsi, volatility)[t] == Combine(f);
    OptionsFacts(bars, t);
    JunkBondFacts(volatility[t], volatility[t]);
    CombineFacts(f);
  }

  // ---------------------------------------------------------------------------
  // The exponential moving average with missing values

  /** The average stays NaN until the first observation and keeps a value from then on. */
  lemma {:induction false} EwmRunNone(xs: Series, alpha: real)
    requires ValidAlpha(alpha)
    ensures EwmRun(xs, alpha).weighted.None? <==> forall k :: 0 <= k < |xs| ==> xs[k].None?
  {
    if xs != [] {
      var prefix := xs[..|xs| - 1];
      EwmRunNone(prefix, alpha);
      assert forall k :: 0 <= k < |prefix| ==> prefix[k] == xs[k];
    }
  }

  lemma DivisionAtLeast(n: real, d: real, bound: real)
    requires d > 0.0
    ensures n >= bound * d ==> n / d >= bound
    ensures n <= bound * d ==> n / d <= bound
  {
    assert (n / d) * d == n;
    assert n / d - bound == (n - bound * d) / d;
    QuotientSign(n - bound * d, d);
  }

  lemma ScaledBelow(a: real, x: real, y: real)
    requires a >= 0.0 && x <= y
    ensures a * x <= a * y
  {
    NonNegativeProduct(a, y - x);
  }

  /** A blend of an average and an observation with non-negative weights lies between their bounds. */
  lemma BlendWithin(oldWeight: real, weighted: real, x: real, alpha: real, lo: real, hi: real)
    requires oldWeight >= 0.0 && alpha > 0.0
    requires lo <= weighted <= hi && lo <= x <= hi
    ensures lo <= Blend(oldWeight, weighted, x, alpha) <= hi
  {
    var d := oldWeight + alpha;
    var n := oldWeight * weighted + alpha * x;
    assert Blend(oldWeight, weighted, x, alpha) == n / d;
    WeightedAtLeast(oldWeight, weighted, alpha, x, lo);
    WeightedAtLeast(oldWeight, -weighted, alpha, -x, -hi);
    DivisionAtLeast(n, d, lo);
    DivisionAtLeast(n, d, hi);
  }

  /** `o * w + a * x >= lo * (o + a)` when both weights are non-negative and both values at least `lo`. */
  lemma WeightedAtLeast(o: real, w: real, a: real, x: real, lo: real)
    requires o >= 0.0 && a >= 0.0 && lo <= w && lo <= x
    ensures o * w + a * x >= lo * (o + a)
  {
    NonNegativeProduct(o, w - lo);
    NonNegativeProduct(a, x - lo);
  }

  /** Every value of the average lies within the bounds of the observations so far. */
  lemma {:induction false} EwmRunWithin(xs: Series, alpha: real, lo: real, hi: real)
    requires ValidAlpha(alpha)
    requires forall k :: 0 <= k < |xs| && xs[k].Some? ==> lo <= xs[k].value <= hi
    ensures EwmRun(xs, alpha).weighted.Some? ==> lo <= EwmRun(xs, alpha).weighted.value <= hi
  {
    if xs != [] {
      var prefix := xs[..|xs| - 1];
      assert forall k :: 0 <= k < |prefix| ==> prefix[k] == xs[k];
      EwmRunWithin(prefix, alpha, lo, hi);
      var s := EwmRun(prefix, alpha);
      var x := xs[|xs| - 1];
      if s.weighted.Some? && x.Some? && s.weighted.value != x.value {
        PositiveDecay(s.oldWeight, alpha);
        BlendWithin(Decay(s.oldWeight, alpha), s.weighted.value, x.value, alpha, lo, hi);
      }
    }
  }

  /**
   * The smoothed series: NaN exactly until the first observation, carried
   * forward over a NaN, and always within the bounds of the observations.
   */
  lemma EwmFacts(xs: Series, alpha: real, lo: real, hi: real)
    requires ValidAlpha(alpha)
    requires forall k :: 0 <= k < |xs| && xs[k].Some? ==> lo <= xs[k].value <= hi
    ensures forall t :: 0 <= t < |xs| ==> (Ewm(xs, alpha)[t].None? <==> forall k :: 0 <= k <= t ==> xs[k].None?)
    ensures forall t :: 0 < t < |xs| && xs[t].None? ==> Ewm(xs, alpha)[t] == Ewm(xs, alpha)[t - 1]
    ensures forall t :: 0 <= t < |xs| && Ewm(xs, alpha)[t].Some? ==> lo <= Ewm(xs, alpha)[t].value <= hi
  {
    forall t | 0 <= t < |xs|
      ensures Ewm(xs, alpha)[t].None? <==> forall k :: 0 <= k <= t ==> xs[k].None?
      ensures Ewm(xs, alpha)[t].Some? ==> lo <= Ewm(xs, alpha)[t].value <= hi
    {
      var prefix := xs[..t + 1];
      assert forall k :: 0 <= k <= t ==> prefix[k] == xs[k];
      EwmRunNone(prefix, alpha);
      EwmRunWithin(prefix, alpha, lo, hi);
    }
    forall t | 0 < t < |xs| && xs[t].None?
      ensures Ewm(xs, alpha)[t] == Ewm(xs, alpha)[t - 1]
    {
      assert xs[..t + 1][..t] == xs[..t];
    }
  }

  /** The observed values of a series without NaN. */
  function Values(xs: Series): (r: seq<real>)
    requires forall k :: 0 <= k < |xs| ==> xs[k].Some?
    ensures |r| == |xs| && forall k :: 0 <= k < |xs| ==> xs[k] == Some(r[k])
  {
    seq(|xs|, k requires 0 <= k < |xs| => xs[k].value)
  }

  lemma MixOfEqual(alpha: real, x: real)
    ensures Mix(alpha, x, x) == x
  {
  }

  lemma BlendAfterObservation(weighted: real, x: real, alpha: real)
    requires ValidAlpha(alpha)
    ensures Decay(1.0, alpha) + alpha == 1.0
    ensures Blend(Decay(1.0, alpha), weighted, x, alpha) == Mix(alpha, x, weighted)
  {
  }

  /** Without NaN the pandas state recurrence is `y0 = x0`, `yt = alpha xt + (1 - alpha) y(t-1)`. */
  lemma {:induction false} EwmRunWithoutGaps(xs: Series, alpha: real)
    requires ValidAlpha(alpha) && |xs| > 0 && forall k :: 0 <= k < |xs| ==> xs[k].Some?
    ensures EwmRun(xs, alpha) == EwmState(Some(EwmLast(Values(xs), alpha)), 1.0)
  {
    if |xs| > 1 {
      var prefix := xs[..|xs| - 1];
      assert forall k :: 0 <= k < |prefix| ==> prefix[k] == xs[k];
      EwmRunWithoutGaps(prefix, alpha);
      assert Values(xs)[..|xs| - 1] == Values(prefix);
      var e := EwmLast(Values(prefix), alpha);
      var x := xs[|xs| - 1].value;
      BlendAfterObservation(e, x, alpha);
      MixOfEqual(alpha, x);
    } else {
      assert EwmRun(xs, alpha) == EwmFeed(EwmRun([], alpha), xs[0], alpha);
    }
  }

  lemma EwmWithoutGaps(xs: Series, alpha: real)
    requires ValidAlpha(alpha) && forall k :: 0 <= k < |xs| ==> xs[k].Some?
    ensures forall t :: 0 <= t < |xs| ==> Ewm(xs, alpha)[t] == Some(EwmLast(Values(xs)[..t + 1], alpha))
  {
    forall t | 0 <= t < |xs|
      ensures Ewm(xs, alpha)[t] == Some(EwmLast(Values(xs)[..t + 1], alpha))
    {
      var prefix := xs[..t + 1];
      assert forall k :: 0 <= k < |prefix| ==> prefix[k] == xs[k];
      EwmRunWithoutGaps(prefix, alpha);
      assert Values(prefix) == Values(xs)[..t + 1];
    }
  }

  // ---------------------------------------------------------------------------
  // The index

  /**
   * Before the variation is added, the index is 50 on the rows before the
   * first complete composite and the re-spread smoothed composite after it;
   * when the RSI input lies in [0, 100] so does the smoothed composite.
   */
  lemma SmoothedFacts(bars: seq<Bar>, rsi: Series, volatility: Series)
    requires WellFormed(bars) && |rsi| == |bars| && |volatility| == |bars|
    requires forall t :: 0 <= t < |rsi| && rsi[t].Some? ==> 0.0 <= rsi[t].value <= 100.0
    ensures var c := Composite(bars, rsi, volatility);
      var smooth := Ewm(c, Alpha(10));
      forall t :: 0 <= t < |bars| ==>
        && 0.0 <= Smoothed(bars, rsi, volatility)[t] <= 100.0
        && ((forall k :: 0 <= k <= t ==> c[k].None?) ==> Smoothed(bars, rsi, volatility)[t] == 50.0)
        && (smooth[t].Some? ==>
             && 0.0 <= smooth[t].value <= 100.0
             && Smoothed(bars, rsi, volatility)[t] == Clip((smooth[t].value - 40.0) * 1.5 + 50.0))
  {
    var c := Composite(bars, rsi, volatility);
    forall t | 0 <= t < |c| && c[t].Some?
      ensures 0.0 <= c[t].value <= 100.0
    {
      CompositeFacts(bars, rsi, volatility, t);
    }
    EwmFacts(c, Alpha(10), 0.0, 100.0);
  }

  /**
   * The guard: no index without a frame or with fewer than 252 rows; otherwise
   * one value per row, each in [0, 100], equal to the smoothed index plus the
   * variation whenever that sum is in range.
   */
  lemma FearGreedIndexFacts(df: Option<seq<Bar>>, rsi: Series, volatility: Series, noise: seq<real>)
    requires df.Some? ==> WellFormed(df.value) && |rsi| == |df.value| && |volatility| == |df.value| && |noise| == |df.value|
    ensures var r := CalculateFearGreedIndex(df, rsi, volatility, noise);
      && (r.None? <==> df.None? || |df.value| < MinRows)
      && (r.Some? ==>
           && |r.value| == |df.value|
           && forall t :: 0 <= t < |r.value| ==>
                && 0.0 <= r.value[t] <= 100.0
                && (0.0 <= Smoothed(df.value, rsi, volatility)[t] + noise[t] <= 100.0 ==>
                      r.value[t] == Smoothed(df.value, rsi, volatility)[t] + noise[t]))
  {
  }

  /** Without variation the index is the smoothed index itself. */
  lemma NoiselessIndex(bars: seq<Bar>, rsi: Series, volatility: Series, noise: seq<real>)
    requires WellFormed(bars) && |rsi| == |bars| && |volatility| == |bars| && |noise| == |bars|
    requires |bars| >= MinRows && forall t :: 0 <= t < |noise| ==> noise[t] == 0.0
    ensures CalculateFearGreedIndex(Some(bars), rsi, volatility, noise) == Some(Smoothed(bars, rsi, volatility))
  {
    var r := CalculateFearGreedIndex(Some(bars), rsi, volatility, noise);
    var s := Smoothed(bars, rsi, volatility);
    forall t | 0 <= t < |bars|
      ensures r.value[t] == s[t]
    {
      assert 0.0 <= s[t] <= 100.0;
      assert r.value[t] == Clip(s[t] + noise[t]);
    }
    assert r.value == s;
  }

  // ---------------------------------------------------------------------------
  // Labels

  /** Each value falls in exactly one band, given by the thresholds 25, 45, 55 and 75. */
  lemma SentimentBands(v: real)
    ensures GetSentiment(v) == ExtremeGreed <==> v >= 75.0
    ensures GetSentiment(v) == Greed <==> 55.0 <= v < 75.0
    ensures GetSentiment(v) == Neutral <==> 45.0 <= v < 55.0
    ensures GetSentiment(v) == Fear <==> 25.0 <= v < 45.0
    ensures GetSentiment(v) == ExtremeFear <==> v < 25.0
  {
  }

  /** A higher value never gets a more fearful label. */
  lemma SentimentMonotone(a: real, b: real)
    requires a <= b
    ensures Rank(GetSentiment(a)) <= Rank(GetSentiment(b))
  {
  }

  /** Rounding to the nearest integer moves by at most one half and stays within integer bounds. */
  lemma RoundHalfEvenFacts(y: real, top: int)
    ensures y - 0.5 <= RoundHalfEven(y) as real <= y + 0.5
    ensures 0.0 <= y <= top as real ==> 0 <= RoundHalfEven(y) <= top
  {
  }

  /** `round(2)` moves a value by at most 0.005 and keeps a value of [0, 100] in [0, 100]. */
  lemma Round2Facts(x: real)
    ensures x - 0.005 <= Round2(x) <= x + 0.005
    ensures 0.0 <= x <= 100.0 ==> 0.0 <= Round2(x) <= 100.0
  {
    RoundHalfEvenFacts(x * 100.0, 10000);
  }

  /** The labels written beside an index in [0, 100] are the bands of the rounded values. */
  lemma LabelColumnFacts(index: seq<real>)
    requires forall t :: 0 <= t < |index| ==> 0.0 <= index[t] <= 100.0
    ensures forall t :: 0 <= t < |index| ==> LabelColumn(index)[t] == GetSentiment(Round2(index[t]))
  {
    forall t | 0 <= t < |index|
      ensures LabelColumn(index)[t] == GetSentiment(Round2(index[t]))
    {
      Round2Facts(index[t]);
    }
  }
}
