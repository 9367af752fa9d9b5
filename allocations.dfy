/**
 * The two allocation policies of the trading framework: equal or fixed weights,
 * and the same baseline tilted by a per-symbol Fear & Greed reading.
 */
module Allocations {
  import opened Wrappers
  import opened Prices

  /** One `symbol: weight` item of an allocation dict; a dict is a sequence of them in insertion order. */
  datatype Weight = Weight(symbol: Symbol, weight: real)

  type Weights = seq<Weight>

  /** Why `generate_allocations` raises instead of returning a dict. */
  datatype PolicyError =
    | NoTradableSymbols              // 1.0 / len(symbols) with no symbols
    | ZeroTotalWeight                // division by a zero weight total
    | MissingBaseline(symbol: Symbol)          // baseline_allocations[symbol] is a KeyError
    | NoSentimentDates(symbol: Symbol)         // nearest lookup into an empty index
    | UnsortedSentimentIndex(symbol: Symbol)   // nearest lookup into an index neither strictly increasing nor strictly decreasing

  predicate DistinctKeys(w: Weights) {
    forall i, j | 0 <= i < j < |w| :: w[i].symbol != w[j].symbol
  }

  predicate Distinct(s: seq<Symbol>) {
    forall i, j | 0 <= i < j < |s| :: s[i] != s[j]
  }

  function Keys(w: Weights): seq<Symbol> {
    if w == [] then [] else Keys(w[..|w| - 1]) + [w[|w| - 1].symbol]
  }

  /** `sum(weights.values())` */
  function Total(w: Weights): real {
    if w == [] then 0.0 else Total(w[..|w| - 1]) + w[|w| - 1].weight
  }

  /** `weights.get(symbol)` */
  function Lookup(w: Weights, s: Symbol): Option<real> {
    if w == [] then None
    else if w[|w| - 1].symbol == s then Some(w[|w| - 1].weight)
    else Lookup(w[..|w| - 1], s)
  }

  /** `[col for col in price_data.columns if col in portfolio['assets']]` */
  function TradableSymbols(columns: seq<Symbol>, assets: set<Symbol>): (r: seq<Symbol>)
    ensures forall s :: s in r <==> s in columns && s in assets
    ensures Distinct(columns) ==> Distinct(r)
    ensures Subsequence(r, columns)
  {
    if columns == [] then []
    else
      var prefix := TradableSymbols(columns[..|columns| - 1], assets);
      var last := columns[|columns| - 1];
      assert forall s :: s in columns <==> s in columns[..|columns| - 1] || s == last;
      if last in assets then prefix + [last] else prefix
  }

  /** `{symbol: 1.0 / len(symbols) for symbol in symbols}` */
  function EqualWeights(symbols: seq<Symbol>): Result<Weights, PolicyError> {
    if |symbols| == 0 then Err(NoTradableSymbols)
    else Ok(Uniform(symbols, 1.0 / |symbols| as real))
  }

  function Uniform(symbols: seq<Symbol>, w: real): (r: Weights)
    ensures |r| == |symbols|
  {
    if symbols == [] then [] else Uniform(symbols[..|symbols| - 1], w) + [Weight(symbols[|symbols| - 1], w)]
  }

  /** Every weight divided by `t`, keys and order kept. */
  function Scale(w: Weights, t: real): Weights
    requires t != 0.0
  {
    if w == [] then [] else Scale(w[..|w| - 1], t) + [Weight(w[|w| - 1].symbol, w[|w| - 1].weight / t)]
  }

  /**
   * `{symbol: weight / total for symbol, weight in weights.items()}` with
   * `total = sum(weights.values())`; an empty dict divides nothing.
   */
  function Normalize(w: Weights): Result<Weights, PolicyError> {
    if w == [] then Ok([])
    else if Total(w) == 0.0 then Err(ZeroTotalWeight)
    else Ok(Scale(w, Total(w)))
  }

  /** The baseline of both policies: equal weights, or the configured weights normalised. */
  function Baseline(config: Option<Weights>, symbols: seq<Symbol>): Result<Weights, PolicyError> {
    match config
    case None => EqualWeights(symbols)
    case Some(w) => Normalize(w)
  }

  /**
   * The baseline of the Fear & Greed policy: as `Baseline`, except that its
   * equal-weight dict comprehension divides nothing when there are no symbols.
   */
  function FearGreedBaseline(config: Option<Weights>, symbols: seq<Symbol>): Result<Weights, PolicyError> {
    if config.None? && symbols == [] then Ok([]) else Baseline(config, symbols)
  }

  /** `DCAStrategy.generate_allocations` */
  function DcaAllocations(config: Option<Weights>, table: PriceTable, assets: set<Symbol>): Result<Weights, PolicyError> {
    Baseline(config, TradableSymbols(table.columns, assets))
  }

  // ---------------------------------------------------------------------------
  // Fear & Greed readings and the nearest-date lookup

  /** One row of a `*_fear_greed.csv` file. */
  datatype Reading = Reading(date: Date, index: real)

  predicate StrictlyIncreasing(rs: seq<Reading>) {
    forall i, j | 0 <= i < j < |rs| :: rs[i].date < rs[j].date
  }

  predicate StrictlyDecreasing(rs: seq<Reading>) {
    forall i, j | 0 <= i < j < |rs| :: rs[i].date > rs[j].date
  }

  function Distance(a: Date, b: Date): nat {
    if a <= b then b - a else a - b
  }

  /** First position whose date is `t`, or `|rs|` when `t` is not in the index. */
  function FirstWithDate(rs: seq<Reading>, t: Date): (p: nat)
    ensures p <= |rs|
    ensures p < |rs| ==> rs[p].date == t
    ensures forall i :: 0 <= i < p ==> rs[i].date != t
  {
    if rs == [] then 0 else if rs[0].date == t then 0 else 1 + FirstWithDate(rs[1..], t)
  }

  /** The insertion point of `t`: the first position dated `t` or later. */
  function FirstAtOrAfter(rs: seq<Reading>, t: Date): (p: nat)
    ensures p <= |rs|
    ensures p < |rs| ==> rs[p].date >= t
    ensures forall i :: 0 <= i < p ==> rs[i].date < t
  {
    if rs == [] then 0 else if rs[0].date >= t then 0 else 1 + FirstAtOrAfter(rs[1..], t)
  }

  /**
   * `index.get_indexer([t], method='nearest')` on an increasing index: the
   * neighbour before `t` wins only when it is strictly closer, so ties go to
   * the later date.
   */
  function NearestPosition(rs: seq<Reading>, t: Date): (k: nat)
    requires rs != []
    ensures k < |rs|
  {
    var p := FirstAtOrAfter(rs, t);
    if p == |rs| then p - 1
    else if p == 0 then 0
    else if Distance(rs[p - 1].date, t) < Distance(rs[p].date, t) then p - 1
    else p
  }

  /** The insertion point of `t` in a decreasing index: the first position dated before `t`. */
  function FirstBefore(rs: seq<Reading>, t: Date): (p: nat)
    ensures p <= |rs|
    ensures p < |rs| ==> rs[p].date < t
    ensures forall i :: 0 <= i < p ==> rs[i].date >= t
  {
    if rs == [] then 0 else if rs[0].date < t then 0 else 1 + FirstBefore(rs[1..], t)
  }

  /**
   * `index.get_indexer([t], method='nearest')` on a decreasing index: pandas
   * compares the two neighbours with `<=` there, so the row before the
   * insertion point, dated after `t`, wins a tie; ties again go to the later date.
   */
  function NearestPositionDecreasing(rs: seq<Reading>, t: Date): (k: nat)
    requires rs != []
    ensures k < |rs|
  {
    var p := FirstBefore(rs, t);
    if p == |rs| then p - 1
    else if p == 0 then 0
    else if Distance(rs[p - 1].date, t) <= Distance(rs[p].date, t) then p - 1
    else p
  }

  /**
   * The reading used for date `t`: the exact row, else the nearest row of an
   * index with unique dates in increasing or decreasing order; pandas raises
   * on any other index.
   */
  function SentimentAt(rs: seq<Reading>, t: Date, symbol: Symbol): Result<real, PolicyError> {
    var e := FirstWithDate(rs, t);
    if e < |rs| then Ok(rs[e].index)
    else if !StrictlyIncreasing(rs) && !StrictlyDecreasing(rs) then Err(UnsortedSentimentIndex(symbol))
    else if rs == [] then Err(NoSentimentDates(symbol))
    else if StrictlyIncreasing(rs) then Ok(rs[NearestPosition(rs, t)].index)
    else Ok(rs[NearestPositionDecreasing(rs, t)].index)
  }

  /** The dampened tilt `1 + ((50 - v) / 50) * 0.2`. */
  function SentimentMultiplier(v: real): (m: real)
    ensures 0.0 <= v <= 100.0 ==> 0.8 <= m <= 1.2
    ensures m > 1.0 <==> v < 50.0
    ensures m == 1.0 <==> v == 50.0
  {
    1.0 + ((50.0 - v) / 50.0) * 0.2
  }

  /** The adjusted weight of one symbol, before the final renormalisation. */
  function AdjustOne(symbol: Symbol, baseline: Weights, sentiment: map<Symbol, seq<Reading>>, date: Date): Result<real, PolicyError> {
    var b := Lookup(baseline, symbol);
    if symbol !in sentiment then
      if b.None? then Err(MissingBaseline(symbol)) else Ok(b.value)
    else
      var v := SentimentAt(sentiment[symbol], date, symbol);
      if v.Err? then Err(v.error)
      else if b.None? then Err(MissingBaseline(symbol))
      else Ok(b.value * SentimentMultiplier(v.value))
  }

  /** The dict `adjusted_allocations` after the loop over `symbols`, or the first error it raises. */
  function AdjustedWeights(symbols: seq<Symbol>, baseline: Weights, sentiment: map<Symbol, seq<Reading>>, date: Date): Result<Weights, PolicyError> {
    if symbols == [] then Ok([])
    else
      var prefix := AdjustedWeights(symbols[..|symbols| - 1], baseline, sentiment, date);
      if prefix.Err? then prefix
      else
        var a := AdjustOne(symbols[|symbols| - 1], baseline, sentiment, date);
        if a.Err? then Err(a.error) else Ok(prefix.value + [Weight(symbols[|symbols| - 1], a.value)])
  }

  /** `FearGreedStrategy.generate_allocations` */
  function FearGreedAllocations(config: Option<Weights>, sentiment: map<Symbol, seq<Reading>>, date: Date, table: PriceTable, assets: set<Symbol>): Result<Weights, PolicyError> {
    var symbols := TradableSymbols(table.columns, assets);
    var baseline := FearGreedBaseline(config, symbols);
    if baseline.Err? then Err(baseline.error)
    else
      var adjusted := AdjustedWeights(symbols, baseline.value, sentiment, date);
      if adjusted.Err? then adjusted else Normalize(adjusted.value)
  }

  /** `FearGreedStrategy.generate_allocations`: the baseline, the adjusting loop, then normalisation. */
  method GenerateFearGreedAllocations(config: Option<Weights>, sentiment: map<Symbol, seq<Reading>>, date: Date, table: PriceTable, assets: set<Symbol>)
    returns (r: Result<Weights, PolicyError>)
    ensures r == FearGreedAllocations(config, sentiment, date, table, assets)
  {
    var symbols := TradableSymbols(table.columns, assets);
    var base := FearGreedBaseline(config, symbols);
    if base.Err? {
      return Err(base.error);
    }
    var adjusted := AdjustAll(symbols, base.value, sentiment, date);
    if adjusted.Err? {
      return adjusted;
    }
    r := Normalize(adjusted.value);
  }

  /** The loop of `generate_allocations` filling `adjusted_allocations`; the first failing lookup stops it. */
  method AdjustAll(symbols: seq<Symbol>, baseline: Weights, sentiment: map<Symbol, seq<Reading>>, date: Date)
    returns (r: Result<Weights, PolicyError>)
    ensures r == AdjustedWeights(symbols, baseline, sentiment, date)
  {
    var adjusted: Weights := [];
    var i := 0;
    while i < |symbols|
      invariant 0 <= i <= |symbols|
      invariant AdjustedWeights(symbols[..i], baseline, sentiment, date) == Ok(adjusted)
    {
      assert symbols[..i + 1][..i] == symbols[..i];
      var a := AdjustOne(symbols[i], baseline, sentiment, date);
      if a.Err? {
        assert AdjustedWeights(symbols[..i + 1], baseline, sentiment, date) == Err(a.error);
        AdjustedErrorPersists(symbols, i + 1, baseline, sentiment, date);
        return Err(a.error);
      }
      adjusted := adjusted + [Weight(symbols[i], a.value)];
      i := i + 1;
    }
    assert symbols[..i] == symbols;
    r := Ok(adjusted);
  }

  /** Once the loop over `symbols` has raised, the rest of the loop is never reached. */
  lemma {:induction false} AdjustedErrorPersists(symbols: seq<Symbol>, k: nat, baseline: Weights, sentiment: map<Symbol, seq<Reading>>, date: Date)
    requires k <= |symbols|
    requires AdjustedWeights(symbols[..k], baseline, sentiment, date).Err?
    ensures AdjustedWeights(symbols, baseline, sentiment, date) == AdjustedWeights(symbols[..k], baseline, sentiment, date)
    decreases |symbols| - k
  {
    if k < |symbols| {
      assert symbols[..k + 1][..k] == symbols[..k];
      AdjustedErrorPersists(symbols, k + 1, baseline, sentiment, date);
    } else {
      assert symbols[..k] == symbols;
    }
  }

  /** The policy a framework is configured with. */
  datatype Strategy =
    | DcaStrategy(allocationWeights: Option<Weights>)
    | FearGreedStrategy(allocationWeights: Option<Weights>, fearGreedData: map<Symbol, seq<Reading>>)

  /** `strategy.generate_allocations(date, price_data, portfolio)`; only the asset keys of the portfolio are read. */
  function Allocations(strategy: Strategy, date: Date, table: PriceTable, assets: set<Symbol>): Result<Weights, PolicyError> {
    match strategy
    case DcaStrategy(config) => DcaAllocations(config, table, assets)
    case FearGreedStrategy(config, data) => FearGreedAllocations(config, data, date, table, assets)
  }

  method GenerateAllocations(strategy: Strategy, date: Date, table: PriceTable, assets: set<Symbol>)
    returns (r: Result<Weights, PolicyError>)
    ensures r == Allocations(strategy, date, table, assets)
  {
    match strategy
    case DcaStrategy(config) =>
      r := DcaAllocations(config, table, assets);
    case FearGreedStrategy(config, data) =>
      r := GenerateFearGreedAllocations(config, data, date, table, assets);
  }
}
