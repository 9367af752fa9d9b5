/** What the two allocation policies promise: normalised weights over the right keys, and a bounded tilt. */
module AllocationProperties {
  import opened Wrappers
  import opened Prices
  import opened Allocations

  lemma {:induction false} ScaleKeepsKeys(w: Weights, t: real)
    requires t != 0.0
    ensures Keys(Scale(w, t)) == Keys(w)
    ensures |Scale(w, t)| == |w|
    ensures Total(Scale(w, t)) == Total(w) / t
  {
    if w != [] {
      var n := |w| - 1;
      ScaleKeepsKeys(w[..n], t);
      var s := Scale(w, t);
      assert s[..n] == Scale(w[..n], t);
      assert Total(s) == Total(Scale(w[..n], t)) + w[n].weight / t;
      QuotientsAdd(Total(w[..n]), w[n].weight, t);
    }
  }

  lemma QuotientsAdd(a: real, b: real, t: real)
    requires t != 0.0
    ensures a / t + b / t == (a + b) / t
  {
    var x, y := a / t, b / t;
    assert x * t == a && y * t == b;
    assert (x + y) * t == a + b;
  }

  /** Normalising fails exactly on a non-empty dict whose weights sum to 0; otherwise it keeps the keys and sums to 1. */
  lemma NormalizeSumsToOne(w: Weights)
    ensures Normalize(w).Err? <==> w != [] && Total(w) == 0.0
    ensures Normalize(w).Ok? ==> Keys(Normalize(w).value) == Keys(w)
    ensures Normalize(w).Ok? && w != [] ==> Total(Normalize(w).value) == 1.0
  {
    if w != [] && Total(w) != 0.0 {
      ScaleKeepsKeys(w, Total(w));
    }
  }

  lemma {:induction false} UniformShape(symbols: seq<Symbol>, x: real)
    ensures Keys(Uniform(symbols, x)) == symbols
    ensures Total(Uniform(symbols, x)) == Repeated(x, |symbols|)
    ensures forall s :: s in symbols ==> Lookup(Uniform(symbols, x), s) == Some(x)
  {
    if symbols != [] {
      var n := |symbols| - 1;
      var prefix := Uniform(symbols[..n], x);
      var u := Uniform(symbols, x);
      UniformShape(symbols[..n], x);
      assert u == prefix + [Weight(symbols[n], x)];
      assert u[..n] == prefix;
      assert Keys(u) == Keys(prefix) + [symbols[n]];
      assert symbols[..n] + [symbols[n]] == symbols;
      assert Total(u) == Total(prefix) + x;
      forall s | s in symbols
        ensures Lookup(u, s) == Some(x)
      {
        if s != symbols[n] {
          assert s in symbols[..n];
        }
      }
    }
  }

  /** Equal weighting fails only on an empty symbol list; it gives each symbol `1/N`, and the weights sum to 1. */
  lemma EqualWeightsSumToOne(symbols: seq<Symbol>)
    ensures EqualWeights(symbols).Err? <==> symbols == []
    ensures EqualWeights(symbols).Ok? ==>
      && Keys(EqualWeights(symbols).value) == symbols
      && Total(EqualWeights(symbols).value) == 1.0
      && forall s :: s in symbols ==> Lookup(EqualWeights(symbols).value, s) == Some(1.0 / |symbols| as real)
  {
    if symbols != [] {
      var n := |symbols| as real;
      UniformShape(symbols, 1.0 / n);
      RepeatedIsProduct(1.0 / n, |symbols|);
      assert (1.0 / n) * n == 1.0;
    }
  }

  /**
   * `DCAStrategy.generate_allocations`: raises exactly when nothing is
   * tradable (equal weights) or the configured weights are non-empty with a
   * zero sum; otherwise the keys are the tradable symbols or the configured
   * ones, and the weights sum to 1 whenever there are any.
   */
  lemma DcaAllocationsNormalised(config: Option<Weights>, table: PriceTable, assets: set<Symbol>)
    ensures var r := DcaAllocations(config, table, assets);
      && (config.None? ==>
            && (r.Err? <==> TradableSymbols(table.columns, assets) == [])
            && (r.Ok? ==> Keys(r.value) == TradableSymbols(table.columns, assets) && Total(r.value) == 1.0))
      && (config.Some? ==>
            && (r.Err? <==> config.value != [] && Total(config.value) == 0.0)
            && (r.Ok? ==> Keys(r.value) == Keys(config.value))
            && (r.Ok? && config.value != [] ==> Total(r.value) == 1.0))
  {
    EqualWeightsSumToOne(TradableSymbols(table.columns, assets));
    if config.Some? {
      NormalizeSumsToOne(config.value);
    }
  }

  lemma {:induction false} AdjustedKeys(symbols: seq<Symbol>, baseline: Weights, sentiment: map<Symbol, seq<Reading>>, date: Date)
    ensures AdjustedWeights(symbols, baseline, sentiment, date).Ok? ==> Keys(AdjustedWeights(symbols, baseline, sentiment, date).value) == symbols
  {
    if symbols != [] {
      var n := |symbols| - 1;
      AdjustedKeys(symbols[..n], baseline, sentiment, date);
      assert symbols[..n] + [symbols[n]] == symbols;
    }
  }

  /**
   * `FearGreedStrategy.generate_allocations`: a result is keyed by exactly the
   * tradable symbols, in column order, and its weights sum to 1 when there is
   * at least one such symbol.
   */
  lemma FearGreedAllocationsNormalised(config: Option<Weights>, sentiment: map<Symbol, seq<Reading>>, date: Date, table: PriceTable, assets: set<Symbol>)
    ensures var r := FearGreedAllocations(config, sentiment, date, table, assets);
      && (r.Ok? ==> Keys(r.value) == TradableSymbols(table.columns, assets))
      && (r.Ok? && TradableSymbols(table.columns, assets) != [] ==> Total(r.value) == 1.0)
  {
    var symbols := TradableSymbols(table.columns, assets);
    var baseline := FearGreedBaseline(config, symbols);
    if baseline.Ok? {
      var adjusted := AdjustedWeights(symbols, baseline.value, sentiment, date);
      AdjustedKeys(symbols, baseline.value, sentiment, date);
      if adjusted.Ok? {
        NormalizeSumsToOne(adjusted.value);
        if symbols != [] {
          assert adjusted.value != [] by {
            assert |Keys(adjusted.value)| > 0;
          }
        }
      }
    }
  }

  /**
   * A symbol with a reading keeps its baseline weight scaled by a factor in
   * [0.8, 1.2] when the reading lies in [0, 100]; a symbol without readings
   * keeps its baseline weight unchanged.
   */
  lemma AdjustedWeightBounds(symbol: Symbol, baseline: Weights, sentiment: map<Symbol, seq<Reading>>, date: Date, b: real)
    requires Lookup(baseline, symbol) == Some(b)
    requires b >= 0.0
    requires symbol in sentiment ==> forall r :: r in sentiment[symbol] ==> 0.0 <= r.index <= 100.0
    ensures symbol !in sentiment ==> AdjustOne(symbol, baseline, sentiment, date) == Ok(b)
    ensures AdjustOne(symbol, baseline, sentiment, date).Ok? ==>
      0.8 * b <= AdjustOne(symbol, baseline, sentiment, date).value <= 1.2 * b
  {
    if symbol in sentiment {
      var rs := sentiment[symbol];
      var v := SentimentAt(rs, date, symbol);
      if v.Ok? {
        var e := FirstWithDate(rs, date);
        if e < |rs| {
          assert rs[e] in rs;
          assert v.value == rs[e].index;
        } else if StrictlyIncreasing(rs) {
          var k := NearestPosition(rs, date);
          assert rs[k] in rs;
          assert v.value == rs[k].index;
        } else {
          var k := NearestPositionDecreasing(rs, date);
          assert rs[k] in rs;
          assert v.value == rs[k].index;
        }
        var m := SentimentMultiplier(v.value);
        assert 0.8 <= m <= 1.2;
        assert symbol in sentiment;
        assert Lookup(baseline, symbol).value == b;
        assert SentimentAt(sentiment[symbol], date, symbol) == v;
        TiltBounds(b, m);
        var a := AdjustOne(symbol, baseline, sentiment, date);
        assert a.Ok?;
        assert a.value == b * m;
      }
    }
  }

  lemma TiltBounds(b: real, m: real)
    requires b >= 0.0 && 0.8 <= m <= 1.2
    ensures 0.8 * b <= b * m <= 1.2 * b
  {
    NonNegativeProduct(b, m - 0.8);
    NonNegativeProduct(b, 1.2 - m);
  }

  lemma {:induction false} AdjustedWithoutReadings(symbols: seq<Symbol>, x: real, sentiment: map<Symbol, seq<Reading>>, date: Date)
    requires forall s :: s in symbols ==> s !in sentiment
    ensures AdjustedWeights(symbols, Uniform(symbols, x), sentiment, date) == Ok(Uniform(symbols, x))
  {
    UniformShape(symbols, x);
    AdjustedPrefix(symbols, |symbols|, x, sentiment, date);
    assert symbols[..|symbols|] == symbols;
  }

  lemma {:induction false} AdjustedPrefix(symbols: seq<Symbol>, k: nat, x: real, sentiment: map<Symbol, seq<Reading>>, date: Date)
    requires k <= |symbols|
    requires forall s :: s in symbols ==> s !in sentiment
    requires forall s :: s in symbols ==> Lookup(Uniform(symbols, x), s) == Some(x)
    ensures AdjustedWeights(symbols[..k], Uniform(symbols, x), sentiment, date) == Ok(Uniform(symbols[..k], x))
  {
    if k > 0 {
      AdjustedPrefix(symbols, k - 1, x, sentiment, date);
      assert symbols[..k][..k - 1] == symbols[..k - 1];
      assert symbols[k - 1] in symbols;
    }
  }

  lemma {:induction false} ScaleByOne(w: Weights)
    ensures Scale(w, 1.0) == w
  {
    if w != [] {
      ScaleByOne(w[..|w| - 1]);
    }
  }

  /**
   * With equal baseline weights and no readings for any tradable symbol, the
   * Fear & Greed policy collapses to the plain equal-weight policy; with no
   * tradable symbol at all the plain policy raises while this one returns an
   * empty dict.
   */
  lemma FearGreedWithoutReadingsIsDca(sentiment: map<Symbol, seq<Reading>>, date: Date, table: PriceTable, assets: set<Symbol>)
    requires forall s :: s in TradableSymbols(table.columns, assets) ==> s !in sentiment
    ensures TradableSymbols(table.columns, assets) != [] ==>
      FearGreedAllocations(None, sentiment, date, table, assets) == DcaAllocations(None, table, assets)
    ensures TradableSymbols(table.columns, assets) == [] ==>
      FearGreedAllocations(None, sentiment, date, table, assets) == Ok([]) && DcaAllocations(None, table, assets).Err?
  {
    var symbols := TradableSymbols(table.columns, assets);
    if symbols != [] {
      var x := 1.0 / |symbols| as real;
      AdjustedWithoutReadings(symbols, x, sentiment, date);
      EqualWeightsSumToOne(symbols);
      ScaleByOne(Uniform(symbols, x));
    }
  }

  lemma {:induction false} FirstWithDateFindsAny(rs: seq<Reading>, t: Date, i: nat)
    requires i < |rs| && rs[i].date == t
    ensures FirstWithDate(rs, t) <= i
  {
    if rs[0].date != t {
      FirstWithDateFindsAny(rs[1..], t, i - 1);
    }
  }

  /**
   * On an increasing index without the date itself, the chosen row is at least
   * as close as every other row, and a row just as close is never later.
   */
  lemma NearestIsClosest(rs: seq<Reading>, t: Date)
    requires rs != [] && StrictlyIncreasing(rs)
    requires forall i :: 0 <= i < |rs| ==> rs[i].date != t
    ensures var k := NearestPosition(rs, t);
      forall j :: 0 <= j < |rs| ==>
        && Distance(rs[k].date, t) <= Distance(rs[j].date, t)
        && (Distance(rs[k].date, t) == Distance(rs[j].date, t) ==> rs[j].date <= rs[k].date)
  {
    var p := FirstAtOrAfter(rs, t);
    forall j | 0 <= j < |rs|
      ensures p < |rs| ==> (j < p <==> rs[j].date < t)
    {
      if p < |rs| && j >= p {
        assert rs[p].date <= rs[j].date;
      }
    }
  }

  /**
   * On a decreasing index without the date itself, the chosen row is at least
   * as close as every other row, and a row just as close is never later.
   */
  lemma NearestDecreasingIsClosest(rs: seq<Reading>, t: Date)
    requires rs != [] && StrictlyDecreasing(rs)
    requires forall i :: 0 <= i < |rs| ==> rs[i].date != t
    ensures var k := NearestPositionDecreasing(rs, t);
      forall j :: 0 <= j < |rs| ==>
        && Distance(rs[k].date, t) <= Distance(rs[j].date, t)
        && (Distance(rs[k].date, t) == Distance(rs[j].date, t) ==> rs[j].date <= rs[k].date)
  {
    var p := FirstBefore(rs, t);
    forall j | 0 <= j < |rs|
      ensures p < |rs| ==> (j < p <==> rs[j].date > t)
    {
      if p < |rs| && j >= p {
        assert rs[j].date <= rs[p].date;
      }
    }
  }

  /** Readings dated 20 and 10 looked up on day 14: pandas accepts the decreasing index and reads the row dated 10. */
  lemma DecreasingIndexLookup(a: real, b: real)
    ensures SentimentAt([Reading(20, a), Reading(10, b)], 14, "A") == Ok(b)
  {
    var rs := [Reading(20, a), Reading(10, b)];
    assert FirstWithDate(rs, 14) == 2 by {
      assert rs[1..] == [Reading(10, b)] && rs[1..][1..] == [];
    }
    assert StrictlyDecreasing(rs) && !StrictlyIncreasing(rs);
    assert FirstBefore(rs, 14) == 1 by {
      assert rs[1..] == [Reading(10, b)];
    }
  }

  /** With the exact date present twice, the lookup reads the first of the two rows. */
  lemma RepeatedExactDateReadsFirst(a: real, b: real)
    ensures SentimentAt([Reading(10, a), Reading(10, b)], 10, "A") == Ok(a)
  {
  }

  /**
   * A zero configured weight for the only tradable symbol, which has a
   * reading, leaves an adjusted total of 0, so the final normalisation fails.
   */
  lemma ZeroAdjustedTotalFails(v: real)
    ensures FearGreedAllocations(Some([Weight("A", 0.0), Weight("B", 1.0)]), map["A" := [Reading(10, v)]], 10,
                                 PriceTable(["A"], [10], map[10 := map["A" := 100.0]]), {"A"})
            == Err(ZeroTotalWeight)
  {
    ZeroExampleBaseline();
    ZeroExampleAdjusted(v);
    assert [Weight("A", 0.0)][..0] == [];
  }

  lemma ZeroExampleBaseline()
    ensures TradableSymbols(["A"], {"A"}) == ["A"]
    ensures FearGreedBaseline(Some([Weight("A", 0.0), Weight("B", 1.0)]), ["A"]) == Ok([Weight("A", 0.0), Weight("B", 1.0)])
  {
    assert ["A"][..0] == [];
    var config := [Weight("A", 0.0), Weight("B", 1.0)];
    assert config[..1] == [Weight("A", 0.0)] && config[..1][..0] == [];
    assert Total(config) == 1.0;
    assert Scale(config[..1], 1.0) == [Weight("A", 0.0)];
    assert Scale(config, 1.0) == config;
  }

  lemma ZeroExampleAdjusted(v: real)
    ensures AdjustedWeights(["A"], [Weight("A", 0.0), Weight("B", 1.0)], map["A" := [Reading(10, v)]], 10)
            == Ok([Weight("A", 0.0)])
  {
    var config := [Weight("A", 0.0), Weight("B", 1.0)];
    var sentiment := map["A" := [Reading(10, v)]];
    assert config[..1] == [Weight("A", 0.0)];
    assert Lookup(config, "A") == Some(0.0);
    assert SentimentAt(sentiment["A"], 10, "A") == Ok(v);
    assert AdjustOne("A", config, sentiment, 10) == Ok(0.0);
    var symbols := ["A"];
    assert symbols[..0] == [] && symbols[0] == "A";
    assert AdjustedWeights(symbols[..0], config, sentiment, 10) == Ok([]);
    var none: Weights := [];
    assert none + [Weight("A", 0.0)] == [Weight("A", 0.0)];
    assert AdjustedWeights(symbols, config, sentiment, 10) == Ok(none + [Weight("A", 0.0)]);
  }

  /**
   * For two equally weighted symbols where the first reads 0 (extreme fear)
   * and the second has no readings, the tilt 0.5 * 1.2 = 0.6 renormalised
   * against 0.5 gives the fearful symbol 6/11 > 1/2.
   */
  lemma ExtremeFearRaisesWeight(d: Date)
    ensures var table := PriceTable(["A", "B"], [d], map[d := map["A" := 100.0, "B" := 100.0]]);
      FearGreedAllocations(None, map["A" := [Reading(d, 0.0)]], d, table, {"A", "B"})
        == Ok([Weight("A", 6.0 / 11.0), Weight("B", 5.0 / 11.0)])
  {
    FearExampleBaseline();
    FearExampleTilt(d);
    FearExampleNormalised();
  }

  lemma FearExampleBaseline()
    ensures TradableSymbols(["A", "B"], {"A", "B"}) == ["A", "B"]
    ensures FearGreedBaseline(None, ["A", "B"]) == Ok([Weight("A", 0.5), Weight("B", 0.5)])
  {
    assert ["A", "B"][..1] == ["A"];
    assert ["A"][..0] == [];
    assert TradableSymbols(["A"], {"A", "B"}) == ["A"];
    assert Uniform(["A"], 0.5) == [Weight("A", 0.5)];
    assert Uniform(["A", "B"], 0.5) == [Weight("A", 0.5), Weight("B", 0.5)];
  }

  lemma FearExampleTilt(d: Date)
    ensures AdjustedWeights(["A", "B"], [Weight("A", 0.5), Weight("B", 0.5)], map["A" := [Reading(d, 0.0)]], d)
      == Ok([Weight("A", 0.6), Weight("B", 0.5)])
  {
    var uniform := [Weight("A", 0.5), Weight("B", 0.5)];
    var sentiment := map["A" := [Reading(d, 0.0)]];
    assert SentimentAt([Reading(d, 0.0)], d, "A") == Ok(0.0);
    assert uniform[..1] == [Weight("A", 0.5)];
    assert Lookup(uniform, "A") == Some(0.5);
    assert SentimentMultiplier(0.0) == 1.2;
    assert AdjustOne("A", uniform, sentiment, d) == Ok(0.6);
    assert AdjustOne("B", uniform, sentiment, d) == Ok(0.5);
    assert ["A", "B"][..1] == ["A"];
    assert AdjustedWeights(["A"], uniform, sentiment, d) == Ok([Weight("A", 0.6)]) by {
      assert ["A"][..0] == [];
      assert AdjustedWeights([], uniform, sentiment, d) == Ok([]);
      assert [] + [Weight("A", 0.6)] == [Weight("A", 0.6)];
    }
    assert [Weight("A", 0.6)] + [Weight("B", 0.5)] == [Weight("A", 0.6), Weight("B", 0.5)];
  }

  lemma FearExampleNormalised()
    ensures Normalize([Weight("A", 0.6), Weight("B", 0.5)]) == Ok([Weight("A", 6.0 / 11.0), Weight("B", 5.0 / 11.0)])
  {
    var adjusted := [Weight("A", 0.6), Weight("B", 0.5)];
    assert adjusted[..1] == [Weight("A", 0.6)];
    assert [Weight("A", 0.6)][..0] == [];
    assert Total([Weight("A", 0.6)]) == 0.6;
    assert Total(adjusted) == 1.1;
    assert Scale([Weight("A", 0.6)], 1.1) == [Weight("A", 6.0 / 11.0)];
    assert Scale(adjusted, 1.1) == [Weight("A", 0.6 / 1.1), Weight("B", 0.5 / 1.1)];
  }

  // ---------------------------------------------------------------------------
  // Weight bounds

  /** Every weight lies in [0, 1]. */
  predicate UnitWeights(w: Weights) {
    forall i :: 0 <= i < |w| ==> 0.0 <= w[i].weight <= 1.0
  }

  predicate NonNegativeWeights(w: Weights) {
    forall i :: 0 <= i < |w| ==> w[i].weight >= 0.0
  }

  /** The configuration a run can be given sensibly: non-negative configured weights and readings on the 0-100 scale. */
  predicate WellFormedStrategy(strategy: Strategy) {
    && (strategy.allocationWeights.Some? ==> NonNegativeWeights(strategy.allocationWeights.value))
    && (strategy.FearGreedStrategy? ==>
          forall s, r :: s in strategy.fearGreedData && r in strategy.fearGreedData[s] ==> 0.0 <= r.index <= 100.0)
  }

  lemma {:induction false} NonNegativeTotal(w: Weights)
    requires NonNegativeWeights(w)
    ensures Total(w) >= 0.0
    ensures forall i :: 0 <= i < |w| ==> w[i].weight <= Total(w)
  {
    if w != [] {
      var n := |w| - 1;
      assert NonNegativeWeights(w[..n]) by {
        assert forall i :: 0 <= i < n ==> w[..n][i] == w[i];
      }
      NonNegativeTotal(w[..n]);
      assert forall i :: 0 <= i < n ==> w[..n][i] == w[i];
    }
  }

  lemma {:induction false} ScaleAt(w: Weights, t: real, i: nat)
    requires t != 0.0 && i < |w|
    ensures |Scale(w, t)| == |w|
    ensures Scale(w, t)[i] == Weight(w[i].symbol, w[i].weight / t)
  {
    var n := |w| - 1;
    var last := Weight(w[n].symbol, w[n].weight / t);
    assert Scale(w, t) == Scale(w[..n], t) + [last];
    if i < n {
      ScaleAt(w[..n], t, i);
      assert w[..n][i] == w[i];
      assert Scale(w, t)[i] == Scale(w[..n], t)[i];
    } else if n > 0 {
      ScaleAt(w[..n], t, n - 1);
    }
  }

  lemma QuotientInUnit(x: real, t: real)
    requires 0.0 <= x <= t && t > 0.0
    ensures 0.0 <= x / t <= 1.0
  {
  }

  /** Normalising non-negative weights gives weights in [0, 1]. */
  lemma NormalizeIntoUnit(w: Weights)
    requires NonNegativeWeights(w)
    ensures Normalize(w).Ok? ==> UnitWeights(Normalize(w).value)
  {
    if w != [] && Total(w) != 0.0 {
      NonNegativeTotal(w);
      ScaleKeepsKeys(w, Total(w));
      forall i | 0 <= i < |w|
        ensures 0.0 <= Scale(w, Total(w))[i].weight <= 1.0
      {
        ScaleAt(w, Total(w), i);
        QuotientInUnit(w[i].weight, Total(w));
      }
      ScaleKeepsKeys(w, Total(w));
    }
  }

  lemma {:induction false} UniformAt(symbols: seq<Symbol>, x: real, i: nat)
    requires i < |symbols|
    ensures Uniform(symbols, x)[i] == Weight(symbols[i], x)
  {
    var n := |symbols| - 1;
    if i < n {
      UniformAt(symbols[..n], x, i);
    }
  }

  /** Equal weights are `1/N`, within [0, 1]. */
  lemma EqualWeightsIntoUnit(symbols: seq<Symbol>)
    ensures EqualWeights(symbols).Ok? ==> UnitWeights(EqualWeights(symbols).value)
  {
    if symbols != [] {
      var x := 1.0 / |symbols| as real;
      QuotientInUnit(1.0, |symbols| as real);
      forall i | 0 <= i < |symbols|
        ensures 0.0 <= Uniform(symbols, x)[i].weight <= 1.0
      {
        UniformAt(symbols, x, i);
      }
    }
  }

  lemma {:induction false} LookupNonNegative(w: Weights, s: Symbol)
    requires NonNegativeWeights(w)
    ensures Lookup(w, s).Some? ==> Lookup(w, s).value >= 0.0
  {
    if w != [] {
      var n := |w| - 1;
      assert NonNegativeWeights(w[..n]) by {
        assert forall i :: 0 <= i < n ==> w[..n][i] == w[i];
      }
      LookupNonNegative(w[..n], s);
    }
  }

  /** Tilting non-negative baseline weights by readings on the 0-100 scale keeps them non-negative. */
  lemma {:induction false} AdjustedNonNegative(symbols: seq<Symbol>, baseline: Weights, sentiment: map<Symbol, seq<Reading>>, date: Date)
    requires NonNegativeWeights(baseline)
    requires forall s, r :: s in sentiment && r in sentiment[s] ==> 0.0 <= r.index <= 100.0
    ensures AdjustedWeights(symbols, baseline, sentiment, date).Ok? ==> NonNegativeWeights(AdjustedWeights(symbols, baseline, sentiment, date).value)
  {
    if symbols != [] {
      var n := |symbols| - 1;
      AdjustedNonNegative(symbols[..n], baseline, sentiment, date);
      var s := symbols[n];
      LookupNonNegative(baseline, s);
      var b := Lookup(baseline, s);
      if b.Some? {
        AdjustedWeightBounds(s, baseline, sentiment, date, b.value);
      }
    }
  }

  /** The baseline of either policy is non-negative when the configured weights are. */
  lemma BaselineNonNegative(config: Option<Weights>, symbols: seq<Symbol>)
    requires config.Some? ==> NonNegativeWeights(config.value)
    ensures Baseline(config, symbols).Ok? ==> UnitWeights(Baseline(config, symbols).value)
    ensures FearGreedBaseline(config, symbols).Ok? ==> UnitWeights(FearGreedBaseline(config, symbols).value)
  {
    EqualWeightsIntoUnit(symbols);
    if config.Some? {
      NormalizeIntoUnit(config.value);
    }
  }

  lemma UnitIsNonNegative(w: Weights)
    requires UnitWeights(w)
    ensures NonNegativeWeights(w)
  {
  }

  /** With a well-formed configuration, every dict either policy returns has weights in [0, 1]. */
  lemma AllocationsIntoUnit(strategy: Strategy, date: Date, table: PriceTable, assets: set<Symbol>)
    requires WellFormedStrategy(strategy)
    ensures Allocations.Allocations(strategy, date, table, assets).Ok? ==> UnitWeights(Allocations.Allocations(strategy, date, table, assets).value)
  {
    var symbols := TradableSymbols(table.columns, assets);
    BaselineNonNegative(strategy.allocationWeights, symbols);
    if strategy.FearGreedStrategy? {
      var baseline := FearGreedBaseline(strategy.allocationWeights, symbols);
      if baseline.Ok? {
        UnitIsNonNegative(baseline.value);
        AdjustedNonNegative(symbols, baseline.value, strategy.fearGreedData, date);
        var adjusted := AdjustedWeights(symbols, baseline.value, strategy.fearGreedData, date);
        if adjusted.Ok? {
          NormalizeIntoUnit(adjusted.value);
        }
      }
    }
  }
}
