/**
 * The trading framework: a weekly stepper over a small ledger (cash, the
 * `assets` dict, the snapshot history and the transaction log) that asks a
 * pluggable strategy for weights and buys fractional shares.
 */
module AlgoTrading {
  import opened Wrappers
  import opened Prices
  import opened Allocations

  datatype Snapshot = Snapshot(date: Date, cash: real, assetsValue: real, totalValue: real)

  /** Every snapshot's total is its cash plus its assets value. */
  predicate SnapshotsAddUp(history: seq<Snapshot>) {
    forall i :: 0 <= i < |history| ==> history[i].totalValue == history[i].cash + history[i].assetsValue
  }

  datatype TradeKind = Buy

  datatype Transaction = Transaction(date: Date, symbol: Symbol, price: real, shares: real, amount: real, kind: TradeKind)

  /** `self.portfolio`; `assetOrder` is the insertion order of the `assets` dict. */
  datatype Portfolio = Portfolio(cash: real, assetOrder: seq<Symbol>, assets: map<Symbol, real>, totalValue: real, history: seq<Snapshot>)
  {
    ghost predicate Valid() {
      && (forall s :: s in assets <==> s in assetOrder)
      && (forall i, j :: 0 <= i < j < |assetOrder| ==> assetOrder[i] != assetOrder[j])
    }
  }

  /** The portfolio together with the framework's transaction log. */
  datatype Ledger = Ledger(portfolio: Portfolio, transactions: seq<Transaction>)

  /** The portfolio `run_backtest` starts from. */
  function InitialPortfolio(initialCapital: real, symbols: seq<Symbol>): Portfolio {
    Portfolio(initialCapital, Dedup(symbols), ZeroHoldings(symbols), initialCapital, [])
  }

  /** `allocation * cash`: what one entry of `_execute_trades` spends. */
  function BuyAmount(allocation: real, cash: real): real {
    allocation * cash
  }

  /** One pass of the loop in `_execute_trades`. */
  function Trade(l: Ledger, date: Date, w: Weight, table: PriceTable): Ledger
    requires table.Valid()
  {
    if !table.Priced(date, w.symbol) then l
    else
      var p := l.portfolio;
      var amount := BuyAmount(w.weight, p.cash);
      if amount < 1.0 then l
      else
        var price := table.Price(date, w.symbol);
        table.PricedInColumns(date, w.symbol);
        var shares := amount / price;
        var held := if w.symbol in p.assets then p.assets[w.symbol] else 0.0;
        var order := if w.symbol in p.assets then p.assetOrder else p.assetOrder + [w.symbol];
        Ledger(p.(cash := p.cash - amount, assetOrder := order, assets := p.assets[w.symbol := held + shares]),
               l.transactions + [Transaction(date, w.symbol, price, shares, amount, Buy)])
  }

  /** `_execute_trades(date, allocations, price_data)`: the allocations traded in dict order. */
  function Trades(l: Ledger, date: Date, allocations: Weights, table: PriceTable): Ledger
    requires table.Valid()
  {
    if allocations == [] then l
    else Trade(Trades(l, date, allocations[..|allocations| - 1], table), date, allocations[|allocations| - 1], table)
  }

  /** What one holding contributes to `assets_value`. */
  function HoldingValue(assets: map<Symbol, real>, s: Symbol, date: Date, table: PriceTable): real {
    if s in assets && table.Priced(date, s) then assets[s] * table.Price(date, s) else 0.0
  }

  /** `sum(shares * price)` over the holdings, in order, that have a price on `date`. */
  function AssetsValue(order: seq<Symbol>, assets: map<Symbol, real>, date: Date, table: PriceTable): real {
    if order == [] then 0.0
    else AssetsValue(order[..|order| - 1], assets, date, table) + HoldingValue(assets, order[|order| - 1], date, table)
  }

  /** `_update_portfolio_value(date, price_data)` */
  function Revalue(p: Portfolio, date: Date, table: PriceTable): Portfolio {
    var v := AssetsValue(p.assetOrder, p.assets, date, table);
    p.(totalValue := p.cash + v, history := p.history + [Snapshot(date, p.cash, v, p.cash + v)])
  }

  /**
   * The walk back from a scheduled Friday: one day at a time while the day is
   * not a trading date and is still after `start`.
   */
  function WalkBack(table: PriceTable, d: Date, start: Date): (v: Date)
    ensures v <= d
    ensures d <= start ==> v == d
    ensures d > start ==> start <= v
    ensures table.HasDate(v) || v == (if d <= start then d else start)
    ensures forall k :: v < k <= d ==> !table.HasDate(k)
    decreases d - start
  {
    if !table.HasDate(d) && d > start then WalkBack(table, d - 1, start) else d
  }

  /** The state of a run after some weeks: still running, or stopped by an exception from the strategy. */
  datatype Outcome = Running(ledger: Ledger) | Aborted(ledger: Ledger, error: PolicyError)

  /** One iteration of the weekly loop of `run_backtest`. */
  function Week(l: Ledger, strategy: Strategy, date: Date, start: Date, table: PriceTable, weekly: real): Outcome
    requires table.Valid()
  {
    if !table.HasDate(WalkBack(table, date, start)) then Running(l)
    else
      var credited := l.(portfolio := l.portfolio.(cash := l.portfolio.cash + weekly));
      var allocations := Allocations.Allocations(strategy, date, table, credited.portfolio.assets.Keys);
      if allocations.Err? then Aborted(credited, allocations.error)
      else
        var traded := Trades(credited, date, allocations.value, table);
        Running(traded.(portfolio := Revalue(traded.portfolio, date, table)))
  }

  /** The weekly loop of `run_backtest` over a schedule of Fridays. */
  function Simulate(l: Ledger, strategy: Strategy, schedule: seq<Date>, start: Date, table: PriceTable, weekly: real): Outcome
    requires table.Valid()
  {
    if schedule == [] then Running(l)
    else
      var before := Simulate(l, strategy, schedule[..|schedule| - 1], start, table, weekly);
      if before.Aborted? then before
      else Week(before.ledger, strategy, schedule[|schedule| - 1], start, table, weekly)
  }

  // ---------------------------------------------------------------------------
  // Performance metrics

  /** Numeric metrics; a `None` return or drawdown stands for a non-finite value. */
  datatype Metrics = Metrics(totalInvested: real, finalValue: real, totalReturn: Option<real>, maxDrawdown: Option<real>)

  /** `(final - invested) / invested * 100`; a zero denominator gives no finite number. */
  function TotalReturn(finalValue: real, invested: real): Option<real> {
    if invested == 0.0 then None else Some((finalValue - invested) / invested * 100.0)
  }

  function Totals(history: seq<Snapshot>): (v: seq<real>)
    ensures |v| == |history|
    ensures forall i :: 0 <= i < |history| ==> v[i] == history[i].totalValue
  {
    seq(|history|, i requires 0 <= i < |history| => history[i].totalValue)
  }

  ghost predicate AllPositive(v: seq<real>) {
    forall i :: 0 <= i < |v| ==> v[i] > 0.0
  }

  /** `(1 + returns).cumprod()` at step `t`, the product of the step growth factors `1 + pct_change`. */
  function Growth(v: seq<real>, t: nat): real
    requires 1 <= t < |v| && AllPositive(v)
  {
    var step := 1.0 + (v[t] - v[t - 1]) / v[t - 1];
    if t == 1 then step else Growth(v, t - 1) * step
  }

  /** `np.maximum.accumulate(cumulative_returns)` at step `t`. */
  function RunningMax(v: seq<real>, t: nat): real
    requires 1 <= t < |v| && AllPositive(v)
  {
    if t == 1 then Growth(v, 1)
    else
      var m := RunningMax(v, t - 1);
      if Growth(v, t) > m then Growth(v, t) else m
  }

  /** `(cumulative_returns / running_max - 1) * 100` at step `t`. */
  function Drawdown(v: seq<real>, t: nat): real
    requires 1 <= t < |v| && AllPositive(v)
  {
    (Growth(v, t) / RunningMaxPositive(v, t) - 1.0) * 100.0
  }

  function RunningMaxPositive(v: seq<real>, t: nat): (m: real)
    requires 1 <= t < |v| && AllPositive(v)
    ensures m > 0.0
  {
    GrowthPositive(v, t);
    RunningMaxBounds(v, t);
    RunningMax(v, t)
  }

  lemma {:induction false} GrowthPositive(v: seq<real>, t: nat)
    requires 1 <= t < |v| && AllPositive(v)
    ensures Growth(v, t) > 0.0
  {
    var step := 1.0 + (v[t] - v[t - 1]) / v[t - 1];
    assert step == v[t] / v[t - 1];
    if t > 1 {
      GrowthPositive(v, t - 1);
      PositiveProduct(Growth(v, t - 1), step);
    }
  }

  lemma PositiveProduct(x: real, y: real)
    requires x > 0.0 && y > 0.0
    ensures x * y > 0.0
  {
  }

  lemma {:induction false} RunningMaxBounds(v: seq<real>, t: nat)
    requires 1 <= t < |v| && AllPositive(v)
    ensures RunningMax(v, t) >= Growth(v, t)
    ensures forall k :: 1 <= k <= t ==> RunningMax(v, t) >= Growth(v, k)
  {
    if t > 1 {
      RunningMaxBounds(v, t - 1);
    }
  }

  /** `drawdown.min()` over the steps with a defined return. */
  function MinDrawdown(v: seq<real>, t: nat): real
    requires 1 <= t < |v| && AllPositive(v)
  {
    if t == 1 then Drawdown(v, 1)
    else
      var m := MinDrawdown(v, t - 1);
      if Drawdown(v, t) < m then Drawdown(v, t) else m
  }

  /**
   * `max_drawdown`; undefined with fewer than two snapshots (no returns) or a
   * snapshot value that is not positive (a division by zero or by a negative
   * running maximum).
   */
  function MaxDrawdown(v: seq<real>): Option<real> {
    if |v| < 2 || exists i :: 0 <= i < |v| && v[i] <= 0.0 then None
    else Some(MinDrawdown(v, |v| - 1))
  }

  /** `_calculate_performance_metrics()`; `None` is the empty dict of an empty history. */
  function PerformanceMetrics(history: seq<Snapshot>, initialCapital: real, weekly: real): Option<Metrics> {
    if history == [] then None
    else
      var invested := initialCapital + weekly * (|history| - 1) as real;
      var finalValue := history[|history| - 1].totalValue;
      Some(Metrics(invested, finalValue, TotalReturn(finalValue, invested), MaxDrawdown(Totals(history))))
  }

  // ---------------------------------------------------------------------------
  // The framework object

  datatype BacktestError = NoStrategy | StrategyFailed(error: PolicyError)

  class AlgoTradingFramework {
    const weeklyInvestment: real
    const initialCapital: real
    var strategy: Option<Strategy>
    var portfolio: Portfolio
    var transactionHistory: seq<Transaction>

    ghost function State(): Ledger
      reads this
    {
      Ledger(portfolio, transactionHistory)
    }

    constructor (weeklyInvestment: real, initialCapital: real)
      ensures this.weeklyInvestment == weeklyInvestment && this.initialCapital == initialCapital
      ensures strategy == None && transactionHistory == []
      ensures portfolio == Portfolio(initialCapital, [], map[], initialCapital, [])
    {
      this.weeklyInvestment := weeklyInvestment;
      this.initialCapital := initialCapital;
      portfolio := Portfolio(initialCapital, [], map[], initialCapital, []);
      strategy := None;
      transactionHistory := [];
    }

    method SetStrategy(s: Strategy)
      modifies this
      ensures strategy == Some(s)
      ensures portfolio == old(portfolio) && transactionHistory == old(transactionHistory)
    {
      strategy := Some(s);
    }

    /** `_execute_trades`: buys against the cash left after the earlier entries. */
    method ExecuteTrades(date: Date, allocations: Weights, table: PriceTable)
      requires table.Valid() && portfolio.Valid()
      modifies this
      ensures State() == Trades(old(State()), date, allocations, table)
      ensures portfolio.Valid()
      ensures strategy == old(strategy)
    {
      var i := 0;
      while i < |allocations|
        invariant 0 <= i <= |allocations|
        invariant State() == Trades(old(State()), date, allocations[..i], table)
        invariant portfolio.Valid()
        invariant strategy == old(strategy)
      {
        assert allocations[..i + 1][..i] == allocations[..i];
        ExecuteTrade(date, allocations[i], table);
        i := i + 1;
      }
      assert allocations[..i] == allocations;
    }

    /** One entry of the loop of `_execute_trades`: skip it, or buy `allocation * cash` worth at the day's close. */
    method ExecuteTrade(date: Date, w: Weight, table: PriceTable)
      requires table.Valid() && portfolio.Valid()
      modifies this
      ensures State() == Trade(old(State()), date, w, table)
      ensures portfolio.Valid()
      ensures strategy == old(strategy)
    {
      var symbol, allocation := w.symbol, w.weight;
      if table.Priced(date, symbol) {
        table.PricedInColumns(date, symbol);
      }
      if symbol !in table.columns || date !in table.close || symbol !in table.close[date] {
        return;
      }
      var price := table.close[date][symbol];
      var amount := BuyAmount(allocation, portfolio.cash);
      if amount < 1.0 {
        return;
      }
      var shares := amount / price;
      var held := if symbol in portfolio.assets then portfolio.assets[symbol] else 0.0;
      var order := if symbol in portfolio.assets then portfolio.assetOrder else portfolio.assetOrder + [symbol];
      portfolio := portfolio.(cash := portfolio.cash - amount, assetOrder := order, assets := portfolio.assets[symbol := held + shares]);
      transactionHistory := transactionHistory + [Transaction(date, symbol, price, shares, amount, Buy)];
    }

    /** `_update_portfolio_value`: accumulates `assets_value` over the holdings and appends a snapshot. */
    method UpdatePortfolioValue(date: Date, table: PriceTable)
      requires table.Valid()
      modifies this
      ensures portfolio == Revalue(old(portfolio), date, table)
      ensures transactionHistory == old(transactionHistory) && strategy == old(strategy)
    {
      var assetsValue := 0.0;
      var i := 0;
      while i < |portfolio.assetOrder|
        invariant 0 <= i <= |portfolio.assetOrder|
        invariant portfolio == old(portfolio) && transactionHistory == old(transactionHistory) && strategy == old(strategy)
        invariant assetsValue == AssetsValue(portfolio.assetOrder[..i], portfolio.assets, date, table)
      {
        assert portfolio.assetOrder[..i + 1][..i] == portfolio.assetOrder[..i];
        var symbol := portfolio.assetOrder[i];
        if table.Priced(date, symbol) {
          table.PricedInColumns(date, symbol);
        }
        if symbol in portfolio.assets && symbol in table.columns && date in table.close && symbol in table.close[date] {
          assetsValue := assetsValue + portfolio.assets[symbol] * table.close[date][symbol];
        }
        i := i + 1;
      }
      assert portfolio.assetOrder[..i] == portfolio.assetOrder;
      portfolio := portfolio.(totalValue := portfolio.cash + assetsValue,
                              history := portfolio.history + [Snapshot(date, portfolio.cash, assetsValue, portfolio.cash + assetsValue)]);
    }

    /**
     * One Friday of the loop of `run_backtest`: walk back to a trading date,
     * credit the weekly sum, ask the strategy for weights, trade and revalue;
     * an exception from the strategy is returned after the credit.
     */
    method RunWeek(strat: Strategy, date: Date, start: Date, table: PriceTable) returns (failure: Option<PolicyError>)
      requires table.Valid() && portfolio.Valid()
      modifies this
      ensures strategy == old(strategy) && portfolio.Valid()
      ensures var o := Week(old(State()), strat, date, start, table, weeklyInvestment);
        && State() == o.ledger
        && (failure.None? <==> o.Running?)
        && (failure.Some? ==> o.error == failure.value)
    {
      var validDate := date;
      while validDate !in table.close && validDate > start
        invariant validDate <= date
        invariant WalkBack(table, validDate, start) == WalkBack(table, date, start)
        decreases validDate - start
      {
        validDate := validDate - 1;
      }
      assert validDate == WalkBack(table, date, start);
      ghost var l := State();
      if validDate !in table.close {
        assert Week(l, strat, date, start, table, weeklyInvestment) == Running(l);
        return None;
      }
      portfolio := portfolio.(cash := portfolio.cash + weeklyInvestment);
      ghost var credited := State();
      assert credited == l.(portfolio := l.portfolio.(cash := l.portfolio.cash + weeklyInvestment));
      var allocations := GenerateAllocations(strat, date, table, portfolio.assets.Keys);
      if allocations.Err? {
        assert Week(l, strat, date, start, table, weeklyInvestment) == Aborted(credited, allocations.error);
        return Some(allocations.error);
      }
      ExecuteTrades(date, allocations.value, table);
      ghost var traded := State();
      UpdatePortfolioValue(date, table);
      assert Week(l, strat, date, start, table, weeklyInvestment)
          == Running(traded.(portfolio := Revalue(traded.portfolio, date, table)));
      failure := None;
    }

    /** The loop of `run_backtest` over the Fridays; an exception from the strategy ends it. */
    method RunWeeks(strat: Strategy, start: Date, schedule: seq<Date>, table: PriceTable) returns (failure: Option<PolicyError>)
      requires table.Valid() && portfolio.Valid()
      modifies this
      ensures strategy == old(strategy)
      ensures var o := Simulate(old(State()), strat, schedule, start, table, weeklyInvestment);
        && State() == o.ledger
        && (failure.None? <==> o.Running?)
        && (failure.Some? ==> o.error == failure.value)
    {
      ghost var init := State();
      var i := 0;
      while i < |schedule|
        invariant 0 <= i <= |schedule|
        invariant strategy == old(strategy)
        invariant portfolio.Valid()
        invariant Simulate(init, strat, schedule[..i], start, table, weeklyInvestment) == Running(State())
      {
        ghost var before := State();
        failure := RunWeek(strat, schedule[i], start, table);
        SimulateAdvance(init, strat, schedule, i, start, table, weeklyInvestment, before, State(), failure);
        if failure.Some? {
          return;
        }
        i := i + 1;
      }
      assert schedule[..i] == schedule;
      failure := None;
    }

    /**
     * `run_backtest`: refuses to run without a strategy; otherwise resets the
     * portfolio (not the transaction log) and steps through the Fridays.
     */
    method RunBacktest(start: Date, schedule: seq<Date>, symbols: seq<Symbol>, table: PriceTable)
      returns (r: Result<Option<Metrics>, BacktestError>)
      requires table.Valid()
      modifies this
      ensures strategy == old(strategy)
      ensures old(strategy).None? ==> r == Err(NoStrategy) && State() == old(State())
      ensures old(strategy).Some? ==>
        var outcome := Simulate(Ledger(InitialPortfolio(initialCapital, symbols), old(transactionHistory)),
                                old(strategy).value, schedule, start, table, weeklyInvestment);
        && State() == outcome.ledger
        && r == (if outcome.Aborted? then Err(StrategyFailed(outcome.error))
                 else Ok(PerformanceMetrics(portfolio.history, initialCapital, weeklyInvestment)))
    {
      if strategy.None? {
        return Err(NoStrategy);
      }
      var strat := strategy.value;
      portfolio := InitialPortfolio(initialCapital, symbols);
      var failure := RunWeeks(strat, start, schedule, table);
      if failure.Some? {
        return Err(StrategyFailed(failure.value));
      }
      r := Ok(PerformanceMetrics(portfolio.history, initialCapital, weeklyInvestment));
    }
  }

  /** One more Friday of a run that has not stopped is one more `Week`. */
  lemma SimulateExtend(l: Ledger, strategy: Strategy, schedule: seq<Date>, i: nat, start: Date, table: PriceTable, weekly: real)
    requires table.Valid() && i < |schedule|
    requires Simulate(l, strategy, schedule[..i], start, table, weekly).Running?
    ensures Simulate(l, strategy, schedule[..i + 1], start, table, weekly)
         == Week(Simulate(l, strategy, schedule[..i], start, table, weekly).ledger, strategy, schedule[i], start, table, weekly)
  {
    assert schedule[..i + 1][..i] == schedule[..i];
  }

  /**
   * One Friday of a run that has not stopped: if that `Week` goes on, the
   * run over one more Friday is still going; if the strategy raised, the
   * whole run ends there with that error.
   */
  lemma SimulateAdvance(l: Ledger, strategy: Strategy, schedule: seq<Date>, i: nat, start: Date, table: PriceTable, weekly: real,
                        before: Ledger, after: Ledger, failure: Option<PolicyError>)
    requires table.Valid() && i < |schedule|
    requires Simulate(l, strategy, schedule[..i], start, table, weekly) == Running(before)
    requires var o := Week(before, strategy, schedule[i], start, table, weekly);
      && after == o.ledger
      && (failure.None? <==> o.Running?)
      && (failure.Some? ==> o.error == failure.value)
    ensures failure.None? ==> Simulate(l, strategy, schedule[..i + 1], start, table, weekly) == Running(after)
    ensures failure.Some? ==>
      var o := Simulate(l, strategy, schedule, start, table, weekly);
      o.Aborted? && o.ledger == after && o.error == failure.value
  {
    SimulateExtend(l, strategy, schedule, i, start, table, weekly);
    if failure.Some? {
      SimulateAbortPersists(l, strategy, schedule, i + 1, start, table, weekly);
    }
  }

  /** After the strategy raised, the remaining Fridays are never reached. */
  lemma {:induction false} SimulateAbortPersists(l: Ledger, strategy: Strategy, schedule: seq<Date>, k: nat, start: Date, table: PriceTable, weekly: real)
    requires table.Valid() && k <= |schedule|
    requires Simulate(l, strategy, schedule[..k], start, table, weekly).Aborted?
    ensures Simulate(l, strategy, schedule, start, table, weekly) == Simulate(l, strategy, schedule[..k], start, table, weekly)
    decreases |schedule| - k
  {
    if k < |schedule| {
      assert schedule[..k + 1][..k] == schedule[..k];
      SimulateAbortPersists(l, strategy, schedule, k + 1, start, table, weekly);
    } else {
      assert schedule[..k] == schedule;
    }
  }
}
