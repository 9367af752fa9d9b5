/**
 * The simple weekly DCA backtest: a Friday missing from the price frame is
 * replaced by the last earlier index entry, the weekly sum is split equally
 * over the symbols, and the history records cash, total value and the sum.
 */
module SimpleDca {
  import opened Wrappers
  import opened Prices
  import opened AlgoTrading
  import opened WeeklyDca

  /** A history entry of `SimpleDCAStrategy`. */
  datatype SimpleSnapshot = SimpleSnapshot(date: Date, cash: real, totalValue: real, weeklyInvestment: real)

  datatype SimplePortfolio = SimplePortfolio(book: Book, history: seq<SimpleSnapshot>)

  /** The dict `run_backtest` returns. */
  datatype SimpleMetrics = SimpleMetrics(startDate: Date, endDate: Date, totalWeeks: nat, totalInvested: real,
                                         finalValue: real, totalReturn: Option<real>)

  /** `history[-1]` on an empty history raises `IndexError`. */
  datatype RunError = EmptyHistory

  /**
   * `index[index <= d][-1]`: the last entry, in row order, that is not after `d`;
   * `None` when every entry is after `d`.
   */
  function LastAtOrBefore(index: seq<Date>, d: Date): (r: Option<Date>)
    ensures r.None? <==> forall i :: 0 <= i < |index| ==> index[i] > d
    ensures r.Some? ==> r.value in index && r.value <= d
  {
    if index == [] then None
    else if index[|index| - 1] <= d then Some(index[|index| - 1])
    else
      var r := LastAtOrBefore(index[..|index| - 1], d);
      assert forall i :: 0 <= i < |index| - 1 ==> index[..|index| - 1][i] == index[i];
      r
  }

  /** The trading date a scheduled Friday resolves to, if any. */
  function Resolve(table: PriceTable, d: Date): Option<Date> {
    if table.HasDate(d) then Some(d) else LastAtOrBefore(table.index, d)
  }

  /** One iteration of the date loop: a week that resolves to no trading date is skipped without a credit. */
  function SimpleWeek(p: SimplePortfolio, friday: Date, weekly: real, symbols: seq<Symbol>, table: PriceTable): (r: SimplePortfolio)
    requires table.Valid() && |symbols| > 0 && forall s :: s in symbols ==> s in p.book.assets
    ensures r.book.assets.Keys == p.book.assets.Keys
  {
    var resolved := Resolve(table, friday);
    if resolved.None? then p
    else
      var d := resolved.value;
      var b := InvestWeek(p.book, d, weekly, symbols, table);
      var total := b.cash + AssetsValue(Dedup(symbols), b.assets, d, table);
      SimplePortfolio(b, p.history + [SimpleSnapshot(d, b.cash, total, weekly)])
  }

  /** The date loop of `run_backtest` over the scheduled Fridays. */
  function SimpleRun(p: SimplePortfolio, schedule: seq<Date>, weekly: real, symbols: seq<Symbol>, table: PriceTable): (r: SimplePortfolio)
    requires table.Valid() && |symbols| > 0 && forall s :: s in symbols ==> s in p.book.assets
    ensures r.book.assets.Keys == p.book.assets.Keys
  {
    if schedule == [] then p
    else SimpleWeek(SimpleRun(p, schedule[..|schedule| - 1], weekly, symbols, table), schedule[|schedule| - 1], weekly, symbols, table)
  }

  /** The metrics: `total_invested` counts every scheduled Friday, and an empty history raises. */
  function SimpleMetricsOf(p: SimplePortfolio, start: Date, end: Date, schedule: seq<Date>, weekly: real): Result<SimpleMetrics, RunError> {
    if p.history == [] then Err(EmptyHistory)
    else
      var invested := weekly * |schedule| as real;
      var finalValue := p.history[|p.history| - 1].totalValue;
      Ok(SimpleMetrics(start, end, |schedule|, invested, finalValue, TotalReturn(finalValue, invested)))
  }

  /** The body of the date loop: resolve the Friday, credit, buy, value the holdings in dict order, record. */
  method SimpleStep(p: SimplePortfolio, date: Date, weekly: real, symbols: seq<Symbol>, table: PriceTable) returns (r: SimplePortfolio)
    requires table.Valid() && |symbols| > 0 && forall s :: s in symbols ==> s in p.book.assets
    ensures r == SimpleWeek(p, date, weekly, symbols, table)
  {
    var dateStr := date;
    if dateStr !in table.close {
      var closest := LastAtOrBefore(table.index, dateStr);
      if closest.None? {
        return p;
      }
      dateStr := closest.value;
    }
    var book := p.book.(cash := p.book.cash + weekly);
    var allocationPerSymbol := PerSymbol(weekly, |symbols|);
    book := BuyEqualSplit(book, symbols, allocationPerSymbol, dateStr, table);
    var order := Dedup(symbols);
    var assetsValue := AssetsValueOn(book.assets, order, dateStr, table);
    var totalValue := book.cash + assetsValue;
    r := SimplePortfolio(book, p.history + [SimpleSnapshot(dateStr, book.cash, totalValue, weekly)]);
  }

  /** The date loop on the portfolio value. */
  method RunSimpleDates(p0: SimplePortfolio, schedule: seq<Date>, weekly: real, symbols: seq<Symbol>, table: PriceTable)
    returns (p: SimplePortfolio)
    requires table.Valid() && |symbols| > 0 && forall s :: s in symbols ==> s in p0.book.assets
    ensures p == SimpleRun(p0, schedule, weekly, symbols, table)
  {
    p := p0;
    var i := 0;
    while i < |schedule|
      invariant 0 <= i <= |schedule|
      invariant forall s :: s in symbols ==> s in p.book.assets
      invariant p == SimpleRun(p0, schedule[..i], weekly, symbols, table)
    {
      assert schedule[..i + 1][..i] == schedule[..i];
      p := SimpleStep(p, schedule[i], weekly, symbols, table);
      i := i + 1;
    }
    assert schedule[..i] == schedule;
  }

  class SimpleDcaStrategy {
    const symbols: seq<Symbol>
    const weeklyInvestment: real
    var portfolio: SimplePortfolio

    constructor (symbols: seq<Symbol>, weeklyInvestment: real)
      ensures this.symbols == symbols && this.weeklyInvestment == weeklyInvestment
      ensures portfolio == SimplePortfolio(EmptyBook(symbols), [])
    {
      this.symbols := symbols;
      this.weeklyInvestment := weeklyInvestment;
      portfolio := SimplePortfolio(EmptyBook(symbols), []);
    }

    /**
     * `run_backtest(start_date, end_date)` over the Fridays `schedule` between
     * them. The frame's columns are among the symbols, as its loader builds it;
     * so an empty symbol list always meets the empty-frame exit.
     */
    method RunBacktest(start: Date, end: Date, schedule: seq<Date>, table: PriceTable)
      returns (r: Result<Option<SimpleMetrics>, RunError>)
      requires table.Valid() && forall c :: c in table.columns ==> c in symbols
      modifies this
      ensures table.IsEmpty() ==> r == Ok(None) && portfolio == old(portfolio)
      ensures !table.IsEmpty() ==>
        && |symbols| > 0
        && portfolio == SimpleRun(SimplePortfolio(EmptyBook(symbols), []), schedule, weeklyInvestment, symbols, table)
        && r == (var m := SimpleMetricsOf(portfolio, start, end, schedule, weeklyInvestment);
                 if m.Err? then Err(m.error) else Ok(Some(m.value)))
    {
      if |table.columns| == 0 || |table.index| == 0 {
        return Ok(None);
      }
      assert table.columns[0] in symbols;
      portfolio := SimplePortfolio(EmptyBook(symbols), []);
      portfolio := RunSimpleDates(portfolio, schedule, weeklyInvestment, symbols, table);
      if portfolio.history == [] {
        return Err(EmptyHistory);
      }
      var metrics := SimpleMetricsOf(portfolio, start, end, schedule, weeklyInvestment);
      r := Ok(Some(metrics.value));
    }
  }
}
