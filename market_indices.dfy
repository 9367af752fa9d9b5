/**
 * The Fear & Greed calculator: seven factor series, each rescaled and clipped
 * to [0, 100], averaged with equal weights, smoothed by an exponential moving
 * average, re-spread, clipped, filled and perturbed; and the labelling of a value.
 */
module MarketIndices {
  import opened Wrappers
  import opened Prices

  /** One row of a downloaded price history. */
  datatype Bar = Bar(close: real, high: real, low: real, volume: real)

  /** A pandas series of floats; `None` is NaN. */
  type Series = seq<Option<real>>

  /** Rows needed before an index is computed: a year of trading days. */
  const MinRows: nat := 252
  const MomentumWindow: nat := 125
  const YearWindow: nat := 252

  /** Prices are positive and volumes are not negative, so no division below is by zero. */
  predicate WellFormed(bars: seq<Bar>) {
    forall i :: 0 <= i < |bars| ==> bars[i].close > 0.0 && bars[i].volume >= 0.0
  }

  /** `clip(0, 100)` of a number. */
  function Clip(x: real): (r: real)
    ensures 0.0 <= r <= 100.0
    ensures 0.0 <= x <= 100.0 ==> r == x
  {
    if x < 0.0 then 0.0 else if x > 100.0 then 100.0 else x
  }

  /** `clip(0, 100)` of a series value: NaN stays NaN. */
  function ClipNaN(x: Option<real>): (r: Option<real>)
    ensures r.None? <==> x.None?
    ensures r.Some? ==> 0.0 <= r.value <= 100.0
  {
    if x.None? then None else Some(Clip(x.value))
  }

  /** `(x - base) / base`, the relative change that `pct_change` and the momentum factor compute. */
  function Relative(x: real, base: real): real
    requires base != 0.0
  {
    (x - base) / base
  }

  // ---------------------------------------------------------------------------
  // Rolling windows with `min_periods=1`

  /** The first row of the trailing window of `w` rows that ends at row `t`; shorter at the start. */
  function WindowStart(t: nat, w: nat): (lo: nat)
    requires w > 0
    ensures lo <= t && t + 1 - lo <= w
    ensures t + 1 >= w ==> t + 1 - lo == w
  {
    if t + 1 >= w then t + 1 - w else 0
  }

  function Closes(bars: seq<Bar>): (r: seq<real>)
    ensures |r| == |bars| && forall i :: 0 <= i < |bars| ==> r[i] == bars[i].close
  {
    seq(|bars|, i requires 0 <= i < |bars| => bars[i].close)
  }

  function Highs(bars: seq<Bar>): (r: seq<real>)
    ensures |r| == |bars| && forall i :: 0 <= i < |bars| ==> r[i] == bars[i].high
  {
    seq(|bars|, i requires 0 <= i < |bars| => bars[i].high)
  }

  function Lows(bars: seq<Bar>): (r: seq<real>)
    ensures |r| == |bars| && forall i :: 0 <= i < |bars| ==> r[i] == bars[i].low
  {
    seq(|bars|, i requires 0 <= i < |bars| => bars[i].low)
  }

  /** `rolling(window=w, min_periods=1).mean()` at row `t`. */
  function RollingMean(xs: seq<real>, t: nat, w: nat): real
    requires t < |xs| && w > 0
  {
    var lo := WindowStart(t, w);
    Sum(xs[lo..t + 1]) / (t + 1 - lo) as real
  }

  function Largest(xs: seq<real>): real
    requires |xs| > 0
  {
    if |xs| == 1 then xs[0]
    else
      var m := Largest(xs[..|xs| - 1]);
      if xs[|xs| - 1] > m then xs[|xs| - 1] else m
  }

  function Smallest(xs: seq<real>): real
    requires |xs| > 0
  {
    if |xs| == 1 then xs[0]
    else
      var m := Smallest(xs[..|xs| - 1]);
      if xs[|xs| - 1] < m then xs[|xs| - 1] else m
  }

  /** `rolling(window=w, min_periods=1).max()` at row `t`. */
  function RollingMax(xs: seq<real>, t: nat, w: nat): real
    requires t < |xs| && w > 0
  {
    Largest(xs[WindowStart(t, w)..t + 1])
  }

  /** `rolling(window=w, min_periods=1).min()` at row `t`. */
  function RollingMin(xs: seq<real>, t: nat, w: nat): real
    requires t < |xs| && w > 0
  {
    Smallest(xs[WindowStart(t, w)..t + 1])
  }

  // ---------------------------------------------------------------------------
  // Exponential moving averages

  /** `2 / (span + 1)`, the smoothing factor of `ewm(span=...)`. */
  function Alpha(span: nat): real {
    2.0 / (span as real + 1.0)
  }

  /** `alpha * x + (1 - alpha) * y` */
  function Mix(alpha: real, x: real, y: real): real {
    alpha * x + (1.0 - alpha) * y
  }

  /** The last value of `ewm(adjust=False).mean()` over a series without NaN: `y0 = x0`, `yt = alpha xt + (1 - alpha) y(t-1)`. */
  function EwmLast(xs: seq<real>, alpha: real): real
    requires |xs| > 0
  {
    if |xs| == 1 then xs[0] else Mix(alpha, xs[|xs| - 1], EwmLast(xs[..|xs| - 1], alpha))
  }

  /**
   * The state pandas keeps for `ewm(adjust=False, ignore_na=False).mean()`:
   * the running average (NaN until the first observation) and the weight of
   * the old average, which decays by `1 - alpha` on every row after the first
   * observation and is reset to 1 at every observation.
   */
  datatype EwmState = EwmState(weighted: Option<real>, oldWeight: real)

  /** `old_wt * (1 - alpha)` */
  function Decay(oldWeight: real, alpha: real): real {
    oldWeight * (1.0 - alpha)
  }

  /** `(old_wt * weighted + alpha * x) / (old_wt + alpha)` */
  function Blend(oldWeight: real, weighted: real, x: real, alpha: real): real
    requires oldWeight + alpha != 0.0
  {
    (oldWeight * weighted + alpha * x) / (oldWeight + alpha)
  }

  predicate ValidAlpha(alpha: real) {
    0.0 < alpha < 1.0
  }

  /** One row of the recurrence. */
  function EwmFeed(s: EwmState, x: Option<real>, alpha: real): (r: EwmState)
    requires ValidAlpha(alpha) && s.oldWeight > 0.0
    ensures r.oldWeight > 0.0
  {
    if s.weighted.None? then
      if x.None? then s else EwmState(x, s.oldWeight)
    else
      var decayed := Decay(s.oldWeight, alpha);
      PositiveDecay(s.oldWeight, alpha);
      if x.None? then EwmState(s.weighted, decayed)
      else if s.weighted.value != x.value then EwmState(Some(Blend(decayed, s.weighted.value, x.value, alpha)), 1.0)
      else EwmState(s.weighted, 1.0)
  }

  lemma PositiveDecay(w: real, alpha: real)
    requires ValidAlpha(alpha) && w > 0.0
    ensures Decay(w, alpha) > 0.0
  {
  }

  /** The state after the rows of `xs`. */
  function EwmRun(xs: Series, alpha: real): (r: EwmState)
    requires ValidAlpha(alpha)
    ensures r.oldWeight > 0.0
  {
    if xs == [] then EwmState(None, 1.0) else EwmFeed(EwmRun(xs[..|xs| - 1], alpha), xs[|xs| - 1], alpha)
  }

  /** `ewm(alpha, adjust=False, min_periods=1).mean()`: the running average after each row. */
  function Ewm(xs: Series, alpha: real): (r: Series)
    requires ValidAlpha(alpha)
    ensures |r| == |xs|
  {
    seq(|xs|, t requires 0 <= t < |xs| => EwmRun(xs[..t + 1], alpha).weighted)
  }

  // ---------------------------------------------------------------------------
  // The seven factors at row `t`

  /** Factor 1: the close against its 125-row mean, `((c - ma) / ma * 100 + 20) * 2.5` clipped. */
  function MomentumNorm(bars: seq<Bar>, t: nat): real
    requires WellFormed(bars) && t < |bars|
  {
    var ma := RollingMean(Closes(bars), t, MomentumWindow);
    MeanPositive(Closes(bars), t, MomentumWindow);
    Clip((Relative(bars[t].close, ma) * 100.0 + 20.0) * 2.5)
  }

  lemma MeanPositive(xs: seq<real>, t: nat, w: nat)
    requires t < |xs| && w > 0 && forall i :: 0 <= i < |xs| ==> xs[i] > 0.0
    ensures RollingMean(xs, t, w) > 0.0
  {
    var lo := WindowStart(t, w);
    SumPositive(xs[lo..t + 1]);
  }

  lemma {:induction false} SumPositive(xs: seq<real>)
    requires |xs| > 0 && forall i :: 0 <= i < |xs| ==> xs[i] > 0.0
    ensures Sum(xs) > 0.0
  {
    if |xs| > 1 {
      SumPositive(xs[..|xs| - 1]);
    }
  }

  /** 1 when the close is above 95% of the 252-row high, else 0. */
  function NearHigh(bars: seq<Bar>, t: nat): int
    requires t < |bars|
  {
    if bars[t].close > RollingMax(Highs(bars), t, YearWindow) * 0.95 then 1 else 0
  }

  /** 1 when the close is below 105% of the 252-row low, else 0. */
  function NearLow(bars: seq<Bar>, t: nat): int
    requires t < |bars|
  {
    if bars[t].close < RollingMin(Lows(bars), t, YearWindow) * 1.05 then 1 else 0
  }

  function Strength(bars: seq<Bar>, t: nat): int
    requires t < |bars|
  {
    (NearHigh(bars, t) - NearLow(bars, t)) * 100
  }

  /** Factor 2: `(strength + 40) * 1.25` clipped. */
  function StrengthNorm(bars: seq<Bar>, t: nat): real
    requires t < |bars|
  {
    Clip((Strength(bars, t) as real + 40.0) * 1.25)
  }

  /** `(diff > 0) * volume`: the first row's difference is NaN, which compares false. */
  function Advances(bars: seq<Bar>): (r: seq<real>)
    ensures |r| == |bars|
  {
    seq(|bars|, t requires 0 <= t < |bars| => if t > 0 && bars[t].close - bars[t - 1].close > 0.0 then bars[t].volume else 0.0)
  }

  /** `(diff < 0) * volume` */
  function Declines(bars: seq<Bar>): (r: seq<real>)
    ensures |r| == |bars|
  {
    seq(|bars|, t requires 0 <= t < |bars| => if t > 0 && bars[t].close - bars[t - 1].close < 0.0 then bars[t].volume else 0.0)
  }

  /** `(ema19 - ema39) / (ema39 + 1e-6) * 100` */
  function BreadthOf(ema19: real, ema39: real): real
    requires ema39 >= 0.0
  {
    (ema19 - ema39) / (ema39 + 0.000001) * 100.0
  }

  /** Factor 3: advancing against declining volume, `(breadth + 30) * 1.5` clipped. */
  function BreadthNorm(bars: seq<Bar>, t: nat): real
    requires WellFormed(bars) && t < |bars|
  {
    var ema19 := EwmLast(Advances(bars)[..t + 1], Alpha(19));
    var ema39 := EwmLast(Declines(bars)[..t + 1], Alpha(39));
    DeclinesNonNegative(bars, t);
    Clip((BreadthOf(ema19, ema39) + 30.0) * 1.5)
  }

  lemma DeclinesNonNegative(bars: seq<Bar>, t: nat)
    requires WellFormed(bars) && t < |bars|
    ensures EwmLast(Declines(bars)[..t + 1], Alpha(39)) >= 0.0
  {
    var xs := Declines(bars)[..t + 1];
    assert forall i :: 0 <= i < |xs| ==> xs[i] >= 0.0;
    EwmLastWithin(xs, Alpha(39), 0.0, 0.0);
  }

  /** `ewm(adjust=False)` of a series without NaN stays within the bounds of its inputs. */
  lemma {:induction false} EwmLastWithin(xs: seq<real>, alpha: real, lo: real, hi: real)
    requires |xs| > 0 && 0.0 <= alpha <= 1.0
    requires forall i :: 0 <= i < |xs| ==> lo <= xs[i]
    ensures lo <= EwmLast(xs, alpha)
    ensures (forall i :: 0 <= i < |xs| ==> xs[i] <= hi) ==> EwmLast(xs, alpha) <= hi
  {
    if |xs| > 1 {
      var prefix := xs[..|xs| - 1];
      EwmLastWithin(prefix, alpha, lo, hi);
      MixWithin(alpha, xs[|xs| - 1], EwmLast(prefix, alpha), lo);
      if forall i :: 0 <= i < |xs| ==> xs[i] <= hi {
        MixWithin(alpha, xs[|xs| - 1], EwmLast(prefix, alpha), hi);
      }
    }
  }

  /** A mix of two values lies between them. */
  lemma MixWithin(alpha: real, x: real, y: real, bound: real)
    requires 0.0 <= alpha <= 1.0
    ensures bound <= x && bound <= y ==> bound <= Mix(alpha, x, y)
    ensures x <= bound && y <= bound ==> Mix(alpha, x, y) <= bound
  {
    assert Mix(alpha, x, y) - bound == alpha * (x - bound) + (1.0 - alpha) * (y - bound);
    if bound <= x && bound <= y {
      NonNegativeProduct(alpha, x - bound);
      NonNegativeProduct(1.0 - alpha, y - bound);
    }
    if x <= bound && y <= bound {
      NonNegativeProduct(alpha, bound - x);
      NonNegativeProduct(1.0 - alpha, bound - y);
    }
  }

  /** `pct_change(periods=5) * 100`: NaN for the first five rows. */
  function PriceMomentum(bars: seq<Bar>, t: nat): Option<real>
    requires WellFormed(bars) && t < |bars|
  {
    if t < 5 then None else Some(Relative(bars[t].close, bars[t - 5].close) * 100.0)
  }

  /** Factor 4: `((momentum + 10) * 3)` clipped. */
  function OptionsNorm(bars: seq<Bar>, t: nat): Option<real>
    requires WellFormed(bars) && t < |bars|
  {
    var m := PriceMomentum(bars, t);
    if m.None? then None else ClipNaN(Some((m.value + 10.0) * 3.0))
  }

  /** Factors 5 and 6: `100 - volatility * 2` clipped, from the annualised volatility in percent. */
  function JunkBondNorm(volatility: Option<real>): Option<real> {
    if volatility.None? then None else ClipNaN(Some(100.0 - volatility.value * 2.0))
  }

  /** `(1/7) * f1 + ... + (1/7) * f7`: NaN when any factor is NaN. */
  function Combine(f: seq<Option<real>>): (r: Option<real>)
    requires |f| == 7
  {
    if exists i :: 0 <= i < 7 && f[i].None? then None
    else Some((1.0 / 7.0) * f[0].value + (1.0 / 7.0) * f[1].value + (1.0 / 7.0) * f[2].value + (1.0 / 7.0) * f[3].value
              + (1.0 / 7.0) * f[4].value + (1.0 / 7.0) * f[5].value + (1.0 / 7.0) * f[6].value)
  }

  /**
   * The seven factors at row `t`, in the order of the sum: momentum, strength,
   * breadth, options, junk bonds, market volatility (the junk-bond series again)
   * and safe-haven demand (the RSI, an input).
   */
  function Factors(bars: seq<Bar>, rsi: Series, volatility: Series, t: nat): (f: seq<Option<real>>)
    requires WellFormed(bars) && t < |bars| && |rsi| == |bars| && |volatility| == |bars|
    ensures |f| == 7
  {
    [Some(MomentumNorm(bars, t)), Some(StrengthNorm(bars, t)), Some(BreadthNorm(bars, t)), OptionsNorm(bars, t),
     JunkBondNorm(volatility[t]), JunkBondNorm(volatility[t]), rsi[t]]
  }

  function Composite(bars: seq<Bar>, rsi: Series, volatility: Series): (r: Series)
    requires WellFormed(bars) && |rsi| == |bars| && |volatility| == |bars|
    ensures |r| == |bars|
  {
    seq(|bars|, t requires 0 <= t < |bars| => Combine(Factors(bars, rsi, volatility, t)))
  }

  // ---------------------------------------------------------------------------
  // Smoothing, re-spread and the final series

  /** `((y - 40) * 1.5 + 50).clip(0, 100).fillna(50)` */
  function Respread(y: Option<real>): (r: real)
    ensures 0.0 <= r <= 100.0
  {
    var spread := ClipNaN(if y.None? then None else Some((y.value - 40.0) * 1.5 + 50.0));
    if spread.None? then 50.0 else spread.value
  }

  /** The index before the random variation is added. */
  function Smoothed(bars: seq<Bar>, rsi: Series, volatility: Series): (r: seq<real>)
    requires WellFormed(bars) && |rsi| == |bars| && |volatility| == |bars|
    ensures |r| == |bars|
  {
    var smooth := Ewm(Composite(bars, rsi, volatility), Alpha(10));
    seq(|bars|, t requires 0 <= t < |bars| => Respread(smooth[t]))
  }

  /**
   * `calculate_fear_greed_index(df)`: `None` without a frame or with fewer than
   * 252 rows; otherwise the smoothed index plus the Gaussian variation `noise`
   * (an input), clipped to [0, 100].
   */
  function CalculateFearGreedIndex(df: Option<seq<Bar>>, rsi: Series, volatility: Series, noise: seq<real>): Option<seq<real>>
    requires df.Some? ==> WellFormed(df.value) && |rsi| == |df.value| && |volatility| == |df.value| && |noise| == |df.value|
  {
    if df.None? || |df.value| < MinRows then None
    else Some(Perturb(Smoothed(df.value, rsi, volatility), noise))
  }

  /** `clip(index + noise, 0, 100)`: the variation is added and the sum kept in range, untouched when already in range. */
  function Perturb(index: seq<real>, noise: seq<real>): (r: seq<real>)
    requires |noise| == |index|
    ensures |r| == |index|
    ensures forall t :: 0 <= t < |index| ==>
      && 0.0 <= r[t] <= 100.0
      && (0.0 <= index[t] + noise[t] <= 100.0 ==> r[t] == index[t] + noise[t])
  {
    seq(|index|, t requires 0 <= t < |index| => Clip(index[t] + noise[t]))
  }

  // ---------------------------------------------------------------------------
  // Labels

  /** The five sentiment bands, from the most fearful. */
  datatype Sentiment = ExtremeFear | Fear | Neutral | Greed | ExtremeGreed

  function Rank(s: Sentiment): nat {
    match s
    case ExtremeFear => 0
    case Fear => 1
    case Neutral => 2
    case Greed => 3
    case ExtremeGreed => 4
  }

  function Label(s: Sentiment): string {
    match s
    case ExtremeFear => "Extreme Fear"
    case Fear => "Fear"
    case Neutral => "Neutral"
    case Greed => "Greed"
    case ExtremeGreed => "Extreme Greed"
  }

  /** `get_sentiment(value)`: thresholds 75, 55, 45 and 25, each inclusive from below. */
  function GetSentiment(value: real): Sentiment {
    if value >= 75.0 then ExtremeGreed
    else if value >= 55.0 then Greed
    else if value >= 45.0 then Neutral
    else if value >= 25.0 then Fear
    else ExtremeFear
  }

  /** numpy's `round(y)`: to the nearest integer, a tie to the even one. */
  function RoundHalfEven(y: real): int {
    var n := y.Floor;
    var f := y - n as real;
    if f > 0.5 then n + 1
    else if f < 0.5 then n
    else if n % 2 == 0 then n
    else n + 1
  }

  /** `round(2)` of a stored index value. */
  function Round2(x: real): real {
    RoundHalfEven(x * 100.0) as real / 100.0
  }

  /** The label stored beside a value: its band when the value is a number in [0, 100], otherwise Neutral. */
  function StoredLabel(x: Option<real>): Sentiment {
    if x.Some? && 0.0 <= x.value <= 100.0 then GetSentiment(x.value) else Neutral
  }

  /** The `Sentiment` column written next to the rounded index. */
  function LabelColumn(index: seq<real>): (r: seq<Sentiment>)
    ensures |r| == |index|
  {
    seq(|index|, t requires 0 <= t < |index| => StoredLabel(Some(Round2(index[t]))))
  }
}
