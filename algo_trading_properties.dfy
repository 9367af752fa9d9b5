/**
 * What the trading framework keeps true while it runs: money is neither
 * created nor lost, the logs only grow, every snapshot adds up, a week that
 * resolves to no trading date changes nothing, and the drawdown is a
 * percentage in (-100, 0].
 */
module AlgoTradingProperties {
  import opened Wrappers
  import opened Prices
  import opened Allocations
  import opened AlgoTrading
  import AllocationProperties

  /** The sum of the `amount` column of a transaction log. */
  function Spent(ts: seq<Transaction>): real {
    if ts == [] then 0.0 else Spent(ts[..|ts| - 1]) + ts[|ts| - 1].amount
  }

  lemma SpentAppend(ts: seq<Transaction>, t: Transaction)
    ensures Spent(ts + [t]) == Spent(ts) + t.amount
  {
    assert (ts + [t])[..|ts|] == ts;
  }

  /** Every weight of the dict is at most 1, so no single buy can spend more than the cash at hand. */
  predicate AtMostOne(allocations: Weights) {
    forall i :: 0 <= i < |allocations| ==> allocations[i].weight <= 1.0
  }

  /** Holdings are never negative. */
  predicate NonNegativeHoldings(p: Portfolio) {
    forall s :: s in p.assets ==> p.assets[s] >= 0.0
  }

  /** Every recorded buy spent at least 1 and bought a positive number of shares at a positive price. */
  predicate GenuineBuys(ts: seq<Transaction>) {
    forall i :: 0 <= i < |ts| ==> ts[i].amount >= 1.0 && ts[i].price > 0.0 && ts[i].shares > 0.0
  }

  // ---------------------------------------------------------------------------
  // One trade

  /**
   * `_execute_trades` skips an entry exactly when its symbol has no price on
   * the date or the amount `allocation * cash` is below 1.
   */
  lemma TradeSkips(l: Ledger, date: Date, w: Weight, table: PriceTable)
    requires table.Valid()
    ensures Trade(l, date, w, table) == l <==> !table.Priced(date, w.symbol) || BuyAmount(w.weight, l.portfolio.cash) < 1.0
  {
    if table.Priced(date, w.symbol) && BuyAmount(w.weight, l.portfolio.cash) >= 1.0 {
      TradeBuys(l, date, w, table);
      var r := Trade(l, date, w, table);
      assert |r.transactions| == |l.transactions| + 1;
    }
  }

  /**
   * An entry that is traded moves `allocation * cash` from cash into
   * `amount / price` more shares of its symbol and logs the buy; the history
   * is untouched.
   */
  lemma TradeBuys(l: Ledger, date: Date, w: Weight, table: PriceTable)
    requires table.Valid()
    requires table.Priced(date, w.symbol) && BuyAmount(w.weight, l.portfolio.cash) >= 1.0
    ensures var r := Trade(l, date, w, table);
      var amount := BuyAmount(w.weight, l.portfolio.cash);
      var price := table.Price(date, w.symbol);
      var held := if w.symbol in l.portfolio.assets then l.portfolio.assets[w.symbol] else 0.0;
      && r.portfolio.cash == l.portfolio.cash - amount
      && r.portfolio.assets == l.portfolio.assets[w.symbol := held + amount / price]
      && r.portfolio.assetOrder == (if w.symbol in l.portfolio.assets then l.portfolio.assetOrder else l.portfolio.assetOrder + [w.symbol])
      && r.transactions == l.transactions + [Transaction(date, w.symbol, price, amount / price, amount, Buy)]
      && r.portfolio.history == l.portfolio.history
      && r.portfolio.totalValue == l.portfolio.totalValue
  {
  }

  /** A buy takes `weight * cash` out of cash, so with a weight of at most 1 the cash stays non-negative. */
  lemma SpendNoMoreThanCash(weight: real, cash: real)
    requires weight <= 1.0 && cash >= 0.0
    ensures cash - BuyAmount(weight, cash) >= 0.0
  {
    NonNegativeProduct(1.0 - weight, cash);
  }

  lemma PositiveQuotient(x: real, y: real)
    requires x > 0.0 && y > 0.0
    ensures x / y > 0.0
  {
  }

  // ---------------------------------------------------------------------------
  // One call of `_execute_trades`

  /**
   * One entry of `_execute_trades`, bought or skipped, moves money from cash
   * into the log and nowhere else, and keeps the shape of the portfolio.
   */
  lemma TradeConserves(l: Ledger, date: Date, w: Weight, table: PriceTable)
    requires table.Valid()
    ensures var r := Trade(l, date, w, table);
      && r.portfolio.cash + Spent(r.transactions) == l.portfolio.cash + Spent(l.transactions)
      && l.transactions <= r.transactions
      && r.portfolio.history == l.portfolio.history
      && r.portfolio.totalValue == l.portfolio.totalValue
      && (l.portfolio.Valid() ==> r.portfolio.Valid())
      && (NonNegativeHoldings(l.portfolio) ==> NonNegativeHoldings(r.portfolio))
      && (GenuineBuys(l.transactions) ==> GenuineBuys(r.transactions))
  {
    TradeSkips(l, date, w, table);
    if table.Priced(date, w.symbol) && BuyAmount(w.weight, l.portfolio.cash) >= 1.0 {
      TradeBuys(l, date, w, table);
      table.PricedInColumns(date, w.symbol);
      var amount := BuyAmount(w.weight, l.portfolio.cash);
      var price := table.Price(date, w.symbol);
      var t := Transaction(date, w.symbol, price, amount / price, amount, Buy);
      SpentAppend(l.transactions, t);
      PositiveQuotient(amount, price);
      var r := Trade(l, date, w, table);
      if GenuineBuys(l.transactions) {
        assert forall i :: 0 <= i < |r.transactions| ==> r.transactions[i] == (if i < |l.transactions| then l.transactions[i] else t);
      }
    }
  }

  /**
   * Trading moves money from cash into the transaction log and nowhere else:
   * `cash + spent` is unchanged, the log is only appended to, the snapshot
   * history and the reported total are untouched, the asset keys stay in
   * step with their insertion order, holdings stay non-negative and every
   * new log entry is a genuine buy.
   */
  lemma {:induction false} TradesConserveCash(l: Ledger, date: Date, allocations: Weights, table: PriceTable)
    requires table.Valid()
    ensures var r := Trades(l, date, allocations, table);
      && r.portfolio.cash + Spent(r.transactions) == l.portfolio.cash + Spent(l.transactions)
      && l.transactions <= r.transactions
      && r.portfolio.history == l.portfolio.history
      && r.portfolio.totalValue == l.portfolio.totalValue
      && (l.portfolio.Valid() ==> r.portfolio.Valid())
      && (NonNegativeHoldings(l.portfolio) ==> NonNegativeHoldings(r.portfolio))
      && (GenuineBuys(l.transactions) ==> GenuineBuys(r.transactions))
  {
    if allocations != [] {
      var n := |allocations| - 1;
      TradesConserveCash(l, date, allocations[..n], table);
      TradeConserves(Trades(l, date, allocations[..n], table), date, allocations[n], table);
    }
  }

  /** With every weight at most 1, `_execute_trades` never overdraws a non-negative cash balance. */
  lemma {:induction false} TradesKeepCashNonNegative(l: Ledger, date: Date, allocations: Weights, table: PriceTable)
    requires table.Valid() && AtMostOne(allocations) && l.portfolio.cash >= 0.0
    ensures Trades(l, date, allocations, table).portfolio.cash >= 0.0
  {
    if allocations != [] {
      var n := |allocations| - 1;
      assert AtMostOne(allocations[..n]) by {
        assert forall i :: 0 <= i < n ==> allocations[..n][i] == allocations[i];
      }
      TradesKeepCashNonNegative(l, date, allocations[..n], table);
      var mid := Trades(l, date, allocations[..n], table);
      SpendNoMoreThanCash(allocations[n].weight, mid.portfolio.cash);
    }
  }

  // ---------------------------------------------------------------------------
  // One week and the whole run

  /** The Fridays of the schedule whose walk back ends on a trading date. */
  function ResolvedWeeks(schedule: seq<Date>, start: Date, table: PriceTable): nat {
    if schedule == [] then 0
    else ResolvedWeeks(schedule[..|schedule| - 1], start, table)
         + (if table.HasDate(WalkBack(table, schedule[|schedule| - 1], start)) then 1 else 0)
  }

  /** The history is consistent and, when non-empty, its last entry is the reported total and cash. */
  predicate Consistent(p: Portfolio) {
    && SnapshotsAddUp(p.history)
    && (p.history != [] ==> p.history[|p.history| - 1].totalValue == p.totalValue && p.history[|p.history| - 1].cash == p.cash)
  }

  /** The revaluation appends one snapshot that adds up and becomes the reported total. */
  lemma RevalueAppends(p: Portfolio, date: Date, table: PriceTable)
    requires SnapshotsAddUp(p.history)
    ensures var r := Revalue(p, date, table);
      && r.history == p.history + [Snapshot(date, p.cash, AssetsValue(p.assetOrder, p.assets, date, table), r.totalValue)]
      && r.cash == p.cash && r.assets == p.assets && r.assetOrder == p.assetOrder
      && Consistent(r)
  {
  }

  /**
   * A week whose walk back finds no trading date leaves the ledger exactly as
   * it was, and only such a week does.
   */
  lemma WeekSkipsExactly(l: Ledger, strategy: Strategy, date: Date, start: Date, table: PriceTable, weekly: real)
    requires table.Valid()
    ensures Week(l, strategy, date, start, table, weekly) == Running(l) <==> !table.HasDate(WalkBack(table, date, start))
  {
    WeekAccounts(l, strategy, date, start, table, weekly);
  }

  /** The money the ledger accounts for: the cash at hand plus everything the log says was spent. */
  function Money(l: Ledger): real {
    l.portfolio.cash + Spent(l.transactions)
  }

  /** The ledger after the weekly credit. */
  function Credited(l: Ledger, weekly: real): Ledger {
    l.(portfolio := l.portfolio.(cash := l.portfolio.cash + weekly))
  }

  /**
   * One week: a resolved week credits `weekly`, trades, and appends exactly
   * one snapshot, so the money grows by exactly the credit; a strategy error
   * stops the run after the credit and before any trade; the logs only grow.
   */
  lemma WeekAccounts(l: Ledger, strategy: Strategy, date: Date, start: Date, table: PriceTable, weekly: real)
    requires table.Valid()
    ensures var o := Week(l, strategy, date, start, table, weekly);
      var resolved := table.HasDate(WalkBack(table, date, start));
      && l.transactions <= o.ledger.transactions
      && l.portfolio.history <= o.ledger.portfolio.history
      && (o.Running? && !resolved ==> o.ledger == l)
      && (o.Running? && resolved ==>
            |o.ledger.portfolio.history| == |l.portfolio.history| + 1 && Money(o.ledger) == Money(l) + weekly)
      && (o.Aborted? ==> resolved && o.ledger == Credited(l, weekly))
      && (o.Aborted? ==> |o.ledger.portfolio.history| == |l.portfolio.history| && Money(o.ledger) == Money(l) + weekly)
  {
    if table.HasDate(WalkBack(table, date, start)) {
      var credited := Credited(l, weekly);
      var allocations := Allocations.Allocations(strategy, date, table, credited.portfolio.assets.Keys);
      if allocations.Ok? {
        TradesConserveCash(credited, date, allocations.value, table);
      }
    }
  }

  /**
   * A week whose Friday is walked back to an earlier trading date trades and
   * values under the Friday's own date, which is no row of the frame: the
   * credit stays in cash, nothing is bought, and the snapshot has no assets value.
   */
  lemma WalkedBackWeek(l: Ledger, strategy: Strategy, date: Date, start: Date, table: PriceTable, weekly: real)
    requires table.Valid() && !table.HasDate(date) && table.HasDate(WalkBack(table, date, start))
    ensures var o := Week(l, strategy, date, start, table, weekly);
      var cash := l.portfolio.cash + weekly;
      o.Running? ==>
        && o.ledger.transactions == l.transactions
        && o.ledger.portfolio.cash == cash
        && o.ledger.portfolio.assets == l.portfolio.assets
        && o.ledger.portfolio.assetOrder == l.portfolio.assetOrder
        && o.ledger.portfolio.totalValue == cash
        && o.ledger.portfolio.history == l.portfolio.history + [Snapshot(date, cash, 0.0, cash)]
  {
    var credited := Credited(l, weekly);
    var allocations := Allocations.Allocations(strategy, date, table, credited.portfolio.assets.Keys);
    if allocations.Ok? {
      TradesWithoutRow(credited, date, allocations.value, table);
      AssetsValueWithoutRow(credited.portfolio.assetOrder, credited.portfolio.assets, date, table);
    }
  }

  /** Trading under a date that is no row of the frame buys nothing. */
  lemma {:induction false} TradesWithoutRow(l: Ledger, date: Date, allocations: Weights, table: PriceTable)
    requires table.Valid() && !table.HasDate(date)
    ensures Trades(l, date, allocations, table) == l
  {
    if allocations != [] {
      TradesWithoutRow(l, date, allocations[..|allocations| - 1], table);
    }
  }

  /** Valuing under a date that is no row of the frame finds no price. */
  lemma {:induction false} AssetsValueWithoutRow(order: seq<Symbol>, assets: map<Symbol, real>, date: Date, table: PriceTable)
    requires !table.HasDate(date)
    ensures AssetsValue(order, assets, date, table) == 0.0
  {
    if order != [] {
      AssetsValueWithoutRow(order[..|order| - 1], assets, date, table);
    }
  }

  /** The facts the weekly loop keeps from one Friday to the next. */
  ghost predicate Keeps(l: Ledger) {
    && l.portfolio.Valid()
    && NonNegativeHoldings(l.portfolio)
    && GenuineBuys(l.transactions)
    && SnapshotsAddUp(l.portfolio.history)
  }

  /** A week keeps the loop's facts, and a resolved week leaves the last snapshot equal to the reported state. */
  lemma WeekKeeps(l: Ledger, strategy: Strategy, date: Date, start: Date, table: PriceTable, weekly: real)
    requires table.Valid() && Keeps(l)
    ensures var o := Week(l, strategy, date, start, table, weekly);
      && Keeps(o.ledger)
      && (o.Running? && table.HasDate(WalkBack(table, date, start)) ==> Consistent(o.ledger.portfolio))
  {
    if table.HasDate(WalkBack(table, date, start)) {
      var credited := Credited(l, weekly);
      var allocations := Allocations.Allocations(strategy, date, table, credited.portfolio.assets.Keys);
      if allocations.Ok? {
        var traded := Trades(credited, date, allocations.value, table);
        TradesConserveCash(credited, date, allocations.value, table);
        RevalueAppends(traded.portfolio, date, table);
      }
    }
  }

  /** The weekly loop only appends, to the transaction log and to the snapshot history, whether it completes or stops. */
  lemma {:induction false} SimulateOnlyAppends(l: Ledger, strategy: Strategy, schedule: seq<Date>, start: Date, table: PriceTable, weekly: real)
    requires table.Valid()
    ensures var o := Simulate(l, strategy, schedule, start, table, weekly);
      && l.transactions <= o.ledger.transactions
      && l.portfolio.history <= o.ledger.portfolio.history
  {
    if schedule != [] {
      var n := |schedule| - 1;
      var before := Simulate(l, strategy, schedule[..n], start, table, weekly);
      SimulateOnlyAppends(l, strategy, schedule[..n], start, table, weekly);
      if before.Running? {
        WeekAccounts(before.ledger, strategy, schedule[n], start, table, weekly);
      }
    }
  }

  /** While the weekly loop runs, the history gains exactly one snapshot per resolved Friday; it never shrinks. */
  lemma {:induction false} SimulateLength(l: Ledger, strategy: Strategy, schedule: seq<Date>, start: Date, table: PriceTable, weekly: real)
    requires table.Valid()
    ensures var o := Simulate(l, strategy, schedule, start, table, weekly);
      && |l.portfolio.history| <= |o.ledger.portfolio.history|
      && (o.Running? ==> |o.ledger.portfolio.history| == |l.portfolio.history| + ResolvedWeeks(schedule, start, table))
  {
    if schedule != [] {
      var n := |schedule| - 1;
      var before := Simulate(l, strategy, schedule[..n], start, table, weekly);
      SimulateLength(l, strategy, schedule[..n], start, table, weekly);
      if before.Running? {
        WeekAccounts(before.ledger, strategy, schedule[n], start, table, weekly);
      }
    }
  }

  /** The money over the whole weekly loop: while it runs, it grows by `weekly` per resolved Friday. */
  lemma {:induction false} SimulateAccounts(l: Ledger, strategy: Strategy, schedule: seq<Date>, start: Date, table: PriceTable, weekly: real)
    requires table.Valid()
    ensures var o := Simulate(l, strategy, schedule, start, table, weekly);
      o.Running? ==> Money(o.ledger) == Money(l) + Repeated(weekly, ResolvedWeeks(schedule, start, table))
  {
    if schedule != [] {
      var n := |schedule| - 1;
      var before := Simulate(l, strategy, schedule[..n], start, table, weekly);
      SimulateAccounts(l, strategy, schedule[..n], start, table, weekly);
      if before.Running? {
        var k := ResolvedWeeks(schedule[..n], start, table);
        WeekAccounts(before.ledger, strategy, schedule[n], start, table, weekly);
        assert Repeated(weekly, k + 1) == Repeated(weekly, k) + weekly;
      }
    }
  }

  /** A strategy error stops the weekly loop with one credit more than there are new snapshots. */
  lemma {:induction false} SimulateAbortAccounts(l: Ledger, strategy: Strategy, schedule: seq<Date>, start: Date, table: PriceTable, weekly: real)
    requires table.Valid()
    ensures var o := Simulate(l, strategy, schedule, start, table, weekly);
      o.Aborted? ==> |l.portfolio.history| <= |o.ledger.portfolio.history|
                     && Money(o.ledger) == Money(l) + Repeated(weekly, |o.ledger.portfolio.history| - |l.portfolio.history| + 1)
  {
    if schedule != [] {
      var n := |schedule| - 1;
      var before := Simulate(l, strategy, schedule[..n], start, table, weekly);
      if before.Running? {
        SimulateAccounts(l, strategy, schedule[..n], start, table, weekly);
        SimulateLength(l, strategy, schedule[..n], start, table, weekly);
        var k := ResolvedWeeks(schedule[..n], start, table);
        var o := Week(before.ledger, strategy, schedule[n], start, table, weekly);
        WeekAccounts(before.ledger, strategy, schedule[n], start, table, weekly);
        if o.Aborted? {
          assert |o.ledger.portfolio.history| - |l.portfolio.history| + 1 == k + 1;
          assert Repeated(weekly, k + 1) == Repeated(weekly, k) + weekly;
        }
      } else {
        SimulateAbortAccounts(l, strategy, schedule[..n], start, table, weekly);
      }
    }
  }

  /** The weekly loop keeps its facts, whether it runs to the end or stops on a strategy error. */
  lemma {:induction false} SimulateKeeps(l: Ledger, strategy: Strategy, schedule: seq<Date>, start: Date, table: PriceTable, weekly: real)
    requires table.Valid() && Keeps(l)
    ensures Keeps(Simulate(l, strategy, schedule, start, table, weekly).ledger)
  {
    if schedule != [] {
      var n := |schedule| - 1;
      var before := Simulate(l, strategy, schedule[..n], start, table, weekly);
      SimulateKeeps(l, strategy, schedule[..n], start, table, weekly);
      if before.Running? {
        WeekKeeps(before.ledger, strategy, schedule[n], start, table, weekly);
      }
    }
  }

  /** With non-negative credits and weights of at most 1, the weekly loop never overdraws the cash. */
  lemma {:induction false} SimulateKeepsCashNonNegative(l: Ledger, strategy: Strategy, schedule: seq<Date>, start: Date, table: PriceTable, weekly: real)
    requires table.Valid() && weekly >= 0.0 && l.portfolio.cash >= 0.0
    requires forall d: Date, assets: set<Symbol> :: Allocations.Allocations(strategy, d, table, assets).Ok? ==> AtMostOne(Allocations.Allocations(strategy, d, table, assets).value)
    ensures Simulate(l, strategy, schedule, start, table, weekly).ledger.portfolio.cash >= 0.0
  {
    if schedule != [] {
      var n := |schedule| - 1;
      SimulateKeepsCashNonNegative(l, strategy, schedule[..n], start, table, weekly);
      var before := Simulate(l, strategy, schedule[..n], start, table, weekly);
      if before.Running? && table.HasDate(WalkBack(table, schedule[n], start)) {
        var credited := Credited(before.ledger, weekly);
        var allocations := Allocations.Allocations(strategy, schedule[n], table, credited.portfolio.assets.Keys);
        if allocations.Ok? {
          TradesKeepCashNonNegative(credited, schedule[n], allocations.value, table);
        }
      }
    }
  }

  // ---------------------------------------------------------------------------
  // A complete run of `run_backtest`

  /** The reset portfolio: one zero holding per distinct symbol, in first-seen order, and no history. */
  lemma InitialKeeps(initialCapital: real, symbols: seq<Symbol>, log: seq<Transaction>)
    requires GenuineBuys(log)
    ensures Keeps(Ledger(InitialPortfolio(initialCapital, symbols), log))
    ensures InitialPortfolio(initialCapital, symbols).assets.Keys == set s | s in symbols
  {
  }

  /**
   * A run from the reset portfolio: every snapshot adds up, the history holds
   * one snapshot per resolved Friday, the money credited (`initial_capital`
   * plus `weekly` per resolved Friday) is exactly the cash left plus the new
   * buys, and the reported `total_invested` is one weekly credit short of it.
   */
  lemma BacktestAccounts(initialCapital: real, symbols: seq<Symbol>, log: seq<Transaction>, strategy: Strategy,
                         schedule: seq<Date>, start: Date, table: PriceTable, weekly: real)
    requires table.Valid() && GenuineBuys(log)
    ensures var o := Simulate(Ledger(InitialPortfolio(initialCapital, symbols), log), strategy, schedule, start, table, weekly);
      var weeks := ResolvedWeeks(schedule, start, table);
      && log <= o.ledger.transactions
      && GenuineBuys(o.ledger.transactions)
      && SnapshotsAddUp(o.ledger.portfolio.history)
      && NonNegativeHoldings(o.ledger.portfolio)
      && (o.Running? ==> |o.ledger.portfolio.history| == weeks)
      && (o.Running? ==>
            o.ledger.portfolio.cash + (Spent(o.ledger.transactions) - Spent(log)) == initialCapital + Repeated(weekly, weeks))
      && (o.Running? && weeks > 0 ==>
            PerformanceMetrics(o.ledger.portfolio.history, initialCapital, weekly).value.totalInvested + weekly
              == initialCapital + Repeated(weekly, weeks))
  {
    var init := Ledger(InitialPortfolio(initialCapital, symbols), log);
    InitialKeeps(initialCapital, symbols, log);
    SimulateOnlyAppends(init, strategy, schedule, start, table, weekly);
    SimulateLength(init, strategy, schedule, start, table, weekly);
    SimulateAccounts(init, strategy, schedule, start, table, weekly);
    SimulateKeeps(init, strategy, schedule, start, table, weekly);
    var o := Simulate(init, strategy, schedule, start, table, weekly);
    var weeks := ResolvedWeeks(schedule, start, table);
    assert Money(init) == initialCapital + Spent(log);
    if o.Running? {
      assert |o.ledger.portfolio.history| == weeks;
      assert Money(o.ledger) == Money(init) + Repeated(weekly, weeks);
      MetricsShape(o.ledger.portfolio.history, initialCapital, weekly);
    }
  }

  /**
   * End to end: with non-negative capital and credits and a well-formed
   * strategy, `run_backtest` never drives the cash below zero, whether it
   * completes or stops on a strategy error.
   */
  lemma BacktestNeverOverdraws(initialCapital: real, symbols: seq<Symbol>, log: seq<Transaction>, strategy: Strategy,
                               schedule: seq<Date>, start: Date, table: PriceTable, weekly: real)
    requires table.Valid() && initialCapital >= 0.0 && weekly >= 0.0
    requires AllocationProperties.WellFormedStrategy(strategy)
    ensures Simulate(Ledger(InitialPortfolio(initialCapital, symbols), log), strategy, schedule, start, table, weekly).ledger.portfolio.cash >= 0.0
  {
    forall d: Date, assets: set<Symbol> | Allocations.Allocations(strategy, d, table, assets).Ok?
      ensures AtMostOne(Allocations.Allocations(strategy, d, table, assets).value)
    {
      AllocationProperties.AllocationsIntoUnit(strategy, d, table, assets);
    }
    SimulateKeepsCashNonNegative(Ledger(InitialPortfolio(initialCapital, symbols), log), strategy, schedule, start, table, weekly);
  }

  function SplitTable(d: Date): PriceTable {
    PriceTable(["SPY", "QQQ", "VTI"], [d], map[d := map["SPY" := 100.0, "QQQ" := 100.0, "VTI" := 100.0]])
  }

  lemma SplitTableValid(d: Date)
    ensures SplitTable(d).Valid()
  {
    assert "SPY"[0] != "QQQ"[0] && "SPY"[0] != "VTI"[0] && "QQQ"[0] != "VTI"[0];
    var t := SplitTable(d);
    assert forall i, j :: 0 <= i < j < |t.columns| ==> t.columns[i] != t.columns[j];
    assert forall d', s :: d' in t.close && s in t.close[d'] ==> s in t.columns;
    assert forall d', s :: d' in t.close && s in t.close[d'] ==> t.close[d'][s] > 0.0;
  }

  function ThirdEach(): Weights {
    [Weight("SPY", 1.0 / 3.0), Weight("QQQ", 1.0 / 3.0), Weight("VTI", 1.0 / 3.0)]
  }

  lemma SplitInitial()
    ensures InitialPortfolio(0.0, ["SPY", "QQQ", "VTI"])
      == Portfolio(0.0, ["SPY", "QQQ", "VTI"], map["SPY" := 0.0, "QQQ" := 0.0, "VTI" := 0.0], 0.0, [])
  {
    SplitDedup();
    SplitZero();
  }

  lemma SplitDedup()
    ensures Dedup(["SPY", "QQQ", "VTI"]) == ["SPY", "QQQ", "VTI"]
  {
    SplitDedupPrefix();
    assert ["SPY", "QQQ", "VTI"][..2] == ["SPY", "QQQ"];
    assert "VTI" !in ["SPY", "QQQ"] by {
      assert "SPY"[0] != "VTI"[0] && "QQQ"[0] != "VTI"[0];
    }
  }

  lemma SplitDedupPrefix()
    ensures Dedup(["SPY", "QQQ"]) == ["SPY", "QQQ"]
  {
    assert Dedup(["SPY"]) == ["SPY"] by {
      assert ["SPY"][..0] == [];
    }
    assert ["SPY", "QQQ"][..1] == ["SPY"];
    assert "QQQ" !in ["SPY"] by {
      assert "SPY"[0] != "QQQ"[0];
    }
  }

  lemma SplitZero()
    ensures ZeroHoldings(["SPY", "QQQ", "VTI"]) == map["SPY" := 0.0, "QQQ" := 0.0, "VTI" := 0.0]
  {
    var m := ZeroHoldings(["SPY", "QQQ", "VTI"]);
    assert m.Keys == {"SPY", "QQQ", "VTI"};
  }

  lemma SplitAllocations(d: Date, assets: set<Symbol>)
    requires assets == {"SPY", "QQQ", "VTI"}
    ensures Allocations.Allocations(DcaStrategy(None), d, SplitTable(d), assets) == Ok(ThirdEach())
  {
    SplitTradable(assets);
    SplitUniform();
  }

  lemma SplitTradable(assets: set<Symbol>)
    requires assets == {"SPY", "QQQ", "VTI"}
    ensures TradableSymbols(["SPY", "QQQ", "VTI"], assets) == ["SPY", "QQQ", "VTI"]
  {
    var syms := ["SPY", "QQQ", "VTI"];
    assert syms[..2] == ["SPY", "QQQ"] && syms[..2][..1] == ["SPY"] && syms[..2][..1][..0] == [];
    assert TradableSymbols(["SPY"], assets) == ["SPY"];
    assert TradableSymbols(["SPY", "QQQ"], assets) == ["SPY", "QQQ"];
  }

  lemma SplitUniform()
    ensures Uniform(["SPY", "QQQ", "VTI"], 1.0 / 3.0) == ThirdEach()
  {
    var syms := ["SPY", "QQQ", "VTI"];
    assert syms[..2] == ["SPY", "QQQ"] && syms[..2][..1] == ["SPY"] && syms[..2][..1][..0] == [];
    assert Uniform(["SPY"], 1.0 / 3.0) == [Weight("SPY", 1.0 / 3.0)];
    assert Uniform(["SPY", "QQQ"], 1.0 / 3.0) == ThirdEach()[..2];
  }

  lemma SplitTrades(d: Date, l: Ledger)
    requires l.portfolio.cash == 500.0 && l.transactions == []
    requires l.portfolio.assetOrder == ["SPY", "QQQ", "VTI"]
    requires l.portfolio.assets == map["SPY" := 0.0, "QQQ" := 0.0, "VTI" := 0.0]
    ensures SplitTable(d).Valid()
    ensures var r := Trades(l, d, ThirdEach(), SplitTable(d));
      && r.portfolio.cash == 4000.0 / 27.0
      && |r.transactions| == 3
      && r.portfolio.assetOrder == ["SPY", "QQQ", "VTI"]
      && r.portfolio.assets == map["SPY" := 5.0 / 3.0, "QQQ" := 10.0 / 9.0, "VTI" := 20.0 / 27.0]
      && r.portfolio.history == l.portfolio.history
  {
    var table := SplitTable(d);
    var w := ThirdEach();
    SplitTableValid(d);
    assert w[..1][..0] == [] && w[..2][..1] == w[..1] && w[..3] == w && w[..3][..2] == w[..2];
    assert Trades(l, d, w[..0], table) == l;
    var t1 := Trades(l, d, w[..1], table);
    assert t1 == Trade(l, d, w[0], table);
    SplitBuy(l, d, "SPY", 500.0);
    var t2 := Trades(l, d, w[..2], table);
    assert t2 == Trade(t1, d, w[1], table);
    SplitBuy(t1, d, "QQQ", 1000.0 / 3.0);
    assert Trades(l, d, w, table) == Trade(t2, d, w[2], table);
    SplitBuy(t2, d, "VTI", 2000.0 / 9.0);
    SplitHoldings(l.portfolio.assets);
  }

  lemma SplitHoldings(m: map<Symbol, real>)
    requires m == map["SPY" := 0.0, "QQQ" := 0.0, "VTI" := 0.0]
    ensures m["SPY" := 500.0 / 300.0]["QQQ" := (1000.0 / 3.0) / 300.0]["VTI" := (2000.0 / 9.0) / 300.0]
      == map["SPY" := 5.0 / 3.0, "QQQ" := 10.0 / 9.0, "VTI" := 20.0 / 27.0]
  {
  }

  /** One buy of the example: a third of the cash, at a price of 100. */
  lemma SplitBuy(l: Ledger, d: Date, s: Symbol, cash: real)
    requires s == "SPY" || s == "QQQ" || s == "VTI"
    requires l.portfolio.cash == cash && cash >= 3.0 && s in l.portfolio.assets && l.portfolio.assets[s] == 0.0
    ensures SplitTable(d).Valid()
    ensures var r := Trade(l, d, Weight(s, 1.0 / 3.0), SplitTable(d));
      && r.portfolio.cash == cash - cash / 3.0
      && r.portfolio.assets == l.portfolio.assets[s := cash / 300.0]
      && r.portfolio.assetOrder == l.portfolio.assetOrder
      && |r.transactions| == |l.transactions| + 1
      && r.portfolio.history == l.portfolio.history
  {
    SplitTableValid(d);
    assert SplitTable(d).Priced(d, s);
    assert BuyAmount(1.0 / 3.0, cash) == cash / 3.0;
    TradeBuys(l, d, Weight(s, 1.0 / 3.0), SplitTable(d));
  }

  lemma SplitValue(d: Date, assets: map<Symbol, real>)
    requires assets == map["SPY" := 5.0 / 3.0, "QQQ" := 10.0 / 9.0, "VTI" := 20.0 / 27.0]
    ensures AssetsValue(["SPY", "QQQ", "VTI"], assets, d, SplitTable(d)) == 500.0 - 4000.0 / 27.0
  {
    var syms := ["SPY", "QQQ", "VTI"];
    var table := SplitTable(d);
    assert syms[..2] == ["SPY", "QQQ"] && syms[..2][..1] == ["SPY"] && syms[..2][..1][..0] == [];
    assert HoldingValue(assets, "SPY", d, table) == 500.0 / 3.0;
    assert HoldingValue(assets, "QQQ", d, table) == 1000.0 / 9.0;
    assert HoldingValue(assets, "VTI", d, table) == 2000.0 / 27.0;
    assert AssetsValue(["SPY"], assets, d, table) == 500.0 / 3.0;
    assert AssetsValue(["SPY", "QQQ"], assets, d, table) == 500.0 / 3.0 + 1000.0 / 9.0;
  }

  /**
   * Three symbols priced 100 on the only Friday, no starting capital and a
   * weekly credit of 500 under equal weights: each buy takes a third of the
   * cash left by the previous one, so 500 * (2/3)^3 = 4000/27 stays in cash
   * after three buys.
   */
  lemma EqualSplitLeavesCash(d: Date)
    ensures SplitTable(d).Valid()
    ensures var o := Simulate(Ledger(InitialPortfolio(0.0, ["SPY", "QQQ", "VTI"]), []), DcaStrategy(None), [d], d, SplitTable(d), 500.0);
      && o.Running?
      && o.ledger.portfolio.cash == 4000.0 / 27.0
      && |o.ledger.transactions| == 3
      && o.ledger.portfolio.history == [Snapshot(d, 4000.0 / 27.0, 500.0 - 4000.0 / 27.0, 500.0)]
  {
    var init := Ledger(InitialPortfolio(0.0, ["SPY", "QQQ", "VTI"]), []);
    SplitTableValid(d);
    SplitWeek(d);
    assert [d][..0] == [];
    assert Simulate(init, DcaStrategy(None), [d], d, SplitTable(d), 500.0) == Week(init, DcaStrategy(None), d, d, SplitTable(d), 500.0);
  }

  /** The one week of the example above. */
  lemma SplitWeek(d: Date)
    ensures SplitTable(d).Valid()
    ensures var o := Week(Ledger(InitialPortfolio(0.0, ["SPY", "QQQ", "VTI"]), []), DcaStrategy(None), d, d, SplitTable(d), 500.0);
      && o.Running?
      && o.ledger.portfolio.cash == 4000.0 / 27.0
      && |o.ledger.transactions| == 3
      && o.ledger.portfolio.history == [Snapshot(d, 4000.0 / 27.0, 500.0 - 4000.0 / 27.0, 500.0)]
  {
    var syms := ["SPY", "QQQ", "VTI"];
    var table := SplitTable(d);
    var init := Ledger(InitialPortfolio(0.0, syms), []);
    SplitInitial();
    SplitTableValid(d);
    var credited := Credited(init, 500.0);
    SplitAllocations(d, credited.portfolio.assets.Keys);
    SplitTrades(d, credited);
    var traded := Trades(credited, d, ThirdEach(), table);
    SplitRevalue(d, traded.portfolio);
    assert WalkBack(table, d, d) == d;
    assert Week(init, DcaStrategy(None), d, d, table, 500.0) == Running(traded.(portfolio := Revalue(traded.portfolio, d, table)));
  }

  lemma SplitRevalue(d: Date, p: Portfolio)
    requires p.cash == 4000.0 / 27.0 && p.history == [] && p.assetOrder == ["SPY", "QQQ", "VTI"]
    requires p.assets == map["SPY" := 5.0 / 3.0, "QQQ" := 10.0 / 9.0, "VTI" := 20.0 / 27.0]
    ensures Revalue(p, d, SplitTable(d)).cash == 4000.0 / 27.0
    ensures Revalue(p, d, SplitTable(d)).history == [Snapshot(d, 4000.0 / 27.0, 500.0 - 4000.0 / 27.0, 500.0)]
  {
    SplitValue(d, p.assets);
  }

  // ---------------------------------------------------------------------------
  // Performance metrics

  /** An empty history gives the empty metrics dict; otherwise `total_invested` counts one credit fewer than there are snapshots. */
  lemma MetricsShape(history: seq<Snapshot>, initialCapital: real, weekly: real)
    ensures PerformanceMetrics(history, initialCapital, weekly).None? <==> history == []
    ensures history != [] ==>
      var m := PerformanceMetrics(history, initialCapital, weekly).value;
      && m.totalInvested + weekly == initialCapital + Repeated(weekly, |history|)
      && m.finalValue == history[|history| - 1].totalValue
      && (m.totalReturn.None? <==> m.totalInvested == 0.0)
  {
    if history != [] {
      RepeatedIsProduct(weekly, |history| - 1);
    }
  }

  /** The compounded step growth telescopes to the ratio of the current value to the first. */
  lemma {:induction false} GrowthTelescopes(v: seq<real>, t: nat)
    requires 1 <= t < |v| && AllPositive(v)
    ensures Growth(v, t) == v[t] / v[0]
  {
    var step := 1.0 + (v[t] - v[t - 1]) / v[t - 1];
    assert step == v[t] / v[t - 1];
    if t > 1 {
      GrowthTelescopes(v, t - 1);
      RatioChain(v[0], v[t - 1], v[t]);
    }
  }

  lemma RatioChain(a: real, b: real, c: real)
    requires a > 0.0 && b > 0.0
    ensures (b / a) * (c / b) == c / a
  {
  }

  /** Each drawdown is a percentage below the running peak: above -100 and at most 0. */
  lemma DrawdownBounds(v: seq<real>, t: nat)
    requires 1 <= t < |v| && AllPositive(v)
    ensures -100.0 < Drawdown(v, t) <= 0.0
  {
    GrowthPositive(v, t);
    RunningMaxBounds(v, t);
    QuotientAtMostOne(Growth(v, t), RunningMaxPositive(v, t));
  }

  lemma QuotientAtMostOne(g: real, m: real)
    requires 0.0 < g <= m
    ensures 0.0 < g / m <= 1.0
  {
  }

  lemma {:induction false} MinDrawdownBounds(v: seq<real>, t: nat)
    requires 1 <= t < |v| && AllPositive(v)
    ensures -100.0 < MinDrawdown(v, t) <= 0.0
    ensures forall k :: 1 <= k <= t ==> MinDrawdown(v, t) <= Drawdown(v, k)
    ensures exists k :: 1 <= k <= t && MinDrawdown(v, t) == Drawdown(v, k)
  {
    DrawdownBounds(v, t);
    if t == 1 {
      assert MinDrawdown(v, t) == Drawdown(v, 1);
    } else {
      MinDrawdownBounds(v, t - 1);
      if Drawdown(v, t) < MinDrawdown(v, t - 1) {
        assert MinDrawdown(v, t) == Drawdown(v, t);
      } else {
        var k :| 1 <= k <= t - 1 && MinDrawdown(v, t - 1) == Drawdown(v, k);
        assert MinDrawdown(v, t) == Drawdown(v, k);
      }
    }
  }

  /**
   * The modelled `max_drawdown` is defined from two positive snapshots on,
   * lies in (-100, 0] and is the worst drawdown of a step with a defined
   * return: no larger than any of them, and equal to one of them.
   */
  lemma MaxDrawdownBounds(v: seq<real>)
    ensures MaxDrawdown(v).Some? <==> |v| >= 2 && AllPositive(v)
    ensures MaxDrawdown(v).Some? ==>
      && -100.0 < MaxDrawdown(v).value <= 0.0
      && (forall k :: 1 <= k < |v| ==> MaxDrawdown(v).value <= Drawdown(v, k))
      && (exists k :: 1 <= k < |v| && MaxDrawdown(v).value == Drawdown(v, k))
  {
    if |v| >= 2 && AllPositive(v) {
      MinDrawdownBounds(v, |v| - 1);
    }
  }

  /**
   * The running peak starts at the first defined return, so a fall from the
   * first snapshot to the second is no drawdown: 100 then 50 gives 0.
   */
  lemma FirstFallUnseen()
    ensures MaxDrawdown([100.0, 50.0]) == Some(0.0)
  {
    var v := [100.0, 50.0];
    assert AllPositive(v);
    assert Growth(v, 1) == 0.5;
    assert RunningMaxPositive(v, 1) == 0.5;
  }

  /** While the values never fall, the running peak is the current growth. */
  lemma {:induction false} RisingPeakIsCurrent(v: seq<real>, t: nat)
    requires 1 <= t < |v| && AllPositive(v)
    requires forall i :: 1 <= i < |v| ==> v[i - 1] <= v[i]
    ensures RunningMax(v, t) == Growth(v, t)
  {
    if t > 1 {
      RisingPeakIsCurrent(v, t - 1);
      GrowthTelescopes(v, t);
      GrowthTelescopes(v, t - 1);
      RatioMonotone(v[0], v[t - 1], v[t]);
    }
  }

  /** A value series that never falls has no drawdown. */
  lemma {:induction false} RisingHasNoDrawdown(v: seq<real>, t: nat)
    requires 1 <= t < |v| && AllPositive(v)
    requires forall i :: 1 <= i < |v| ==> v[i - 1] <= v[i]
    ensures MinDrawdown(v, t) == 0.0
  {
    RisingPeakIsCurrent(v, t);
    GrowthPositive(v, t);
    var g := Growth(v, t);
    assert g / g == 1.0;
    assert Drawdown(v, t) == 0.0;
    if t > 1 {
      RisingHasNoDrawdown(v, t - 1);
    }
  }

  lemma RatioMonotone(a: real, b: real, c: real)
    requires a > 0.0 && b <= c
    ensures b / a <= c / a
  {
  }
}
