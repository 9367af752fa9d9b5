/**
 * The stand-alone weekly DCA simulator and its Fear & Greed variant: every
 * trading Friday a sum is credited, split equally over the configured symbol
 * list and spent on fractional shares; the book is revalued and logged.
 */
module WeeklyDca {
  import opened Wrappers
  import opened Prices
  import opened AlgoTrading

  /** `symbols or ['SPY', 'QQQ', 'VTI']`: an empty or missing list falls back to the default. */
  const DefaultSymbols: seq<Symbol> := ["SPY", "QQQ", "VTI"]

  function ChosenSymbols(symbols: seq<Symbol>): (r: seq<Symbol>)
    ensures r != []
    ensures symbols != [] ==> r == symbols
    ensures symbols == [] ==> r == DefaultSymbols
  {
    if symbols == [] then DefaultSymbols else symbols
  }

  /** The cash and share counts of `self.portfolio`. */
  datatype Book = Book(cash: real, assets: map<Symbol, real>)

  /** `self.portfolio` of the plain strategy. */
  datatype DcaPortfolio = DcaPortfolio(book: Book, history: seq<Snapshot>)

  /** A history entry of the Fear & Greed strategy, which also records the index and the sum credited. */
  datatype FgSnapshot = FgSnapshot(date: Date, fearGreedIndex: real, investment: real, cash: real, assetsValue: real, totalValue: real)

  datatype FgPortfolio = FgPortfolio(book: Book, history: seq<FgSnapshot>)

  /** The reset in `run_backtest`: no cash, zero shares of every symbol, no history. */
  function EmptyBook(symbols: seq<Symbol>): Book {
    Book(0.0, ZeroHoldings(symbols))
  }

  /** The Fridays kept by `valid_dates`: those that are rows of the price frame, in order. */
  function ValidDates(schedule: seq<Date>, table: PriceTable): (r: seq<Date>)
    ensures |r| <= |schedule|
    ensures forall d :: d in r <==> d in schedule && table.HasDate(d)
    ensures Subsequence(r, schedule)
  {
    if schedule == [] then []
    else
      var prefix := ValidDates(schedule[..|schedule| - 1], table);
      var d := schedule[|schedule| - 1];
      assert forall x :: x in schedule <==> x in schedule[..|schedule| - 1] || x == d;
      if table.HasDate(d) then prefix + [d] else prefix
  }

  /** `investment / len(self.symbols)` */
  function PerSymbol(investment: real, n: nat): real
    requires n > 0
  {
    investment / n as real
  }

  /** `amount_per_symbol / price` */
  function SharesFor(amount: real, price: real): real
    requires price > 0.0
  {
    amount / price
  }

  /** One pass of the buy loop: a symbol without a column or with a NaN price is skipped. */
  function BuyShares(b: Book, s: Symbol, per: real, date: Date, table: PriceTable): Book
    requires table.Valid() && s in b.assets
  {
    if !table.Priced(date, s) then b
    else
      table.PricedInColumns(date, s);
      Book(b.cash - per, b.assets[s := b.assets[s] + SharesFor(per, table.Price(date, s))])
  }

  /** The buy loop over `self.symbols`, duplicates included. */
  function BuyEach(b: Book, symbols: seq<Symbol>, per: real, date: Date, table: PriceTable): (r: Book)
    requires table.Valid() && forall s :: s in symbols ==> s in b.assets
    ensures r.assets.Keys == b.assets.Keys
  {
    if symbols == [] then b
    else BuyShares(BuyEach(b, symbols[..|symbols| - 1], per, date, table), symbols[|symbols| - 1], per, date, table)
  }

  /** The investment credited, then split equally over the symbol list and spent. */
  function InvestWeek(b: Book, date: Date, investment: real, symbols: seq<Symbol>, table: PriceTable): (r: Book)
    requires table.Valid() && |symbols| > 0 && forall s :: s in symbols ==> s in b.assets
    ensures r.assets.Keys == b.assets.Keys
  {
    BuyEach(b.(cash := b.cash + investment), symbols, PerSymbol(investment, |symbols|), date, table)
  }

  /** One valid date of `DCAStrategy.run_backtest`: invest, value the symbol list, log a snapshot. */
  function DcaWeek(p: DcaPortfolio, d: Date, weekly: real, symbols: seq<Symbol>, table: PriceTable): (r: DcaPortfolio)
    requires table.Valid() && |symbols| > 0 && forall s :: s in symbols ==> s in p.book.assets
    ensures r.book.assets.Keys == p.book.assets.Keys
  {
    var b := InvestWeek(p.book, d, weekly, symbols, table);
    var v := AssetsValue(symbols, b.assets, d, table);
    DcaPortfolio(b, p.history + [Snapshot(d, b.cash, v, b.cash + v)])
  }

  /** The loop of `DCAStrategy.run_backtest` over the valid dates. */
  function DcaRun(p: DcaPortfolio, dates: seq<Date>, weekly: real, symbols: seq<Symbol>, table: PriceTable): (r: DcaPortfolio)
    requires table.Valid() && |symbols| > 0 && forall s :: s in symbols ==> s in p.book.assets
    ensures r.book.assets.Keys == p.book.assets.Keys
  {
    if dates == [] then p
    else DcaWeek(DcaRun(p, dates[..|dates| - 1], weekly, symbols, table), dates[|dates| - 1], weekly, symbols, table)
  }

  /** `fg_index`: the SPY reading of the date when the loaded data has one, else the neutral 50. */
  function FearGreedIndex(fearGreedData: map<Symbol, map<Date, real>>, date: Date): real {
    if "SPY" in fearGreedData && date in fearGreedData["SPY"] then fearGreedData["SPY"][date] else 50.0
  }

  /** `base_investment * (1 + (50 - fg_index) / 100)` */
  function AdjustedInvestment(base: real, fearGreedIndex: real): real {
    base * (1.0 + (50.0 - fearGreedIndex) / 100.0)
  }

  /** One valid date of `FearGreedBasedStrategy.run_backtest`. */
  function FgWeek(p: FgPortfolio, d: Date, base: real, symbols: seq<Symbol>,
                  fearGreedData: map<Symbol, map<Date, real>>, table: PriceTable): (r: FgPortfolio)
    requires table.Valid() && |symbols| > 0 && forall s :: s in symbols ==> s in p.book.assets
    ensures r.book.assets.Keys == p.book.assets.Keys
  {
    var fg := FearGreedIndex(fearGreedData, d);
    var investment := AdjustedInvestment(base, fg);
    var b := InvestWeek(p.book, d, investment, symbols, table);
    var v := AssetsValue(symbols, b.assets, d, table);
    FgPortfolio(b, p.history + [FgSnapshot(d, fg, investment, b.cash, v, b.cash + v)])
  }

  /** The loop of `FearGreedBasedStrategy.run_backtest` over the valid dates. */
  function FgRun(p: FgPortfolio, dates: seq<Date>, base: real, symbols: seq<Symbol>,
                 fearGreedData: map<Symbol, map<Date, real>>, table: PriceTable): (r: FgPortfolio)
    requires table.Valid() && |symbols| > 0 && forall s :: s in symbols ==> s in p.book.assets
    ensures r.book.assets.Keys == p.book.assets.Keys
  {
    if dates == [] then p
    else FgWeek(FgRun(p, dates[..|dates| - 1], base, symbols, fearGreedData, table), dates[|dates| - 1], base, symbols, fearGreedData, table)
  }

  // ---------------------------------------------------------------------------
  // Results

  /** One line of the final allocation: shares held and their share of all shares, in percent. */
  datatype Holding = Holding(symbol: Symbol, shares: real, percentage: real)

  /** What `_calculate_results` reports; `totalReturn` is `None` where the division has no finite value. */
  datatype Report = Report(firstDate: Date, lastDate: Date, numWeeks: nat, totalInvested: real, finalValue: real,
                           totalReturn: Option<real>, cash: real, allocation: seq<Holding>)

  /** `sum(self.portfolio['assets'].values())`, the keys taken in dict order. */
  function ShareCount(order: seq<Symbol>, assets: map<Symbol, real>): real
    requires forall s :: s in order ==> s in assets
  {
    if order == [] then 0.0 else ShareCount(order[..|order| - 1], assets) + assets[order[|order| - 1]]
  }

  /** `shares / total_assets * 100` when `total_assets > 0`, else 0. */
  function Percentage(shares: real, total: real): real {
    if total > 0.0 then shares / total * 100.0 else 0.0
  }

  /** The allocation loop: one line per key of the `assets` dict. */
  function AllocationLines(order: seq<Symbol>, assets: map<Symbol, real>, total: real): (r: seq<Holding>)
    requires forall s :: s in order ==> s in assets
    ensures |r| == |order|
    ensures forall i :: 0 <= i < |order| ==> r[i].symbol == order[i] && r[i].shares == assets[order[i]]
  {
    if order == [] then []
    else
      var s := order[|order| - 1];
      AllocationLines(order[..|order| - 1], assets, total) + [Holding(s, assets[s], Percentage(assets[s], total))]
  }

  function Allocation(symbols: seq<Symbol>, assets: map<Symbol, real>): seq<Holding>
    requires forall s :: s in symbols ==> s in assets
  {
    var order := Dedup(symbols);
    AllocationLines(order, assets, ShareCount(order, assets))
  }

  /** `_calculate_results()` of the plain strategy; `None` when the history is empty. */
  function DcaReport(p: DcaPortfolio, weekly: real, symbols: seq<Symbol>): Option<Report>
    requires forall s :: s in symbols ==> s in p.book.assets
  {
    if p.history == [] then None
    else
      var n := |p.history|;
      var invested := weekly * n as real;
      var last := p.history[n - 1];
      Some(Report(p.history[0].date, last.date, n, invested, last.totalValue, TotalReturn(last.totalValue, invested),
                  p.book.cash, Allocation(symbols, p.book.assets)))
  }

  /** `sum(entry['investment'] for entry in history)` */
  function Invested(history: seq<FgSnapshot>): real {
    if history == [] then 0.0 else Invested(history[..|history| - 1]) + history[|history| - 1].investment
  }

  /** `_calculate_fg_results()`: as above, but the invested total is the sum of the recorded investments. */
  function FgReport(p: FgPortfolio, symbols: seq<Symbol>): Option<Report>
    requires forall s :: s in symbols ==> s in p.book.assets
  {
    if p.history == [] then None
    else
      var n := |p.history|;
      var invested := Invested(p.history);
      var last := p.history[n - 1];
      Some(Report(p.history[0].date, last.date, n, invested, last.totalValue, TotalReturn(last.totalValue, invested),
                  p.book.cash, Allocation(symbols, p.book.assets)))
  }

  // ---------------------------------------------------------------------------
  // The loops shared by both strategies

  /** The buy loop of `run_backtest`, on the current book. */
  method BuyEqualSplit(b: Book, symbols: seq<Symbol>, per: real, date: Date, table: PriceTable) returns (r: Book)
    requires table.Valid() && table.HasDate(date) && forall s :: s in symbols ==> s in b.assets
    ensures r == BuyEach(b, symbols, per, date, table)
  {
    r := b;
    var i := 0;
    while i < |symbols|
      invariant 0 <= i <= |symbols|
      invariant r == BuyEach(b, symbols[..i], per, date, table)
    {
      assert symbols[..i + 1][..i] == symbols[..i];
      var symbol := symbols[i];
      if symbol !in table.columns {
        i := i + 1;
        continue;
      }
      if symbol !in table.close[date] {
        i := i + 1;
        continue;
      }
      var price := table.close[date][symbol];
      table.PricedInColumns(date, symbol);
      var shares := SharesFor(per, price);
      r := Book(r.cash - per, r.assets[symbol := r.assets[symbol] + shares]);
      i := i + 1;
    }
    assert symbols[..i] == symbols;
  }

  /** The `assets_value` generator: every entry of `self.symbols` with a price on `date`. */
  method AssetsValueOn(assets: map<Symbol, real>, symbols: seq<Symbol>, date: Date, table: PriceTable) returns (v: real)
    requires table.Valid() && table.HasDate(date) && forall s :: s in symbols ==> s in assets
    ensures v == AssetsValue(symbols, assets, date, table)
  {
    v := 0.0;
    var i := 0;
    while i < |symbols|
      invariant 0 <= i <= |symbols|
      invariant v == AssetsValue(symbols[..i], assets, date, table)
    {
      assert symbols[..i + 1][..i] == symbols[..i];
      var symbol := symbols[i];
      if symbol in table.columns && symbol in table.close[date] {
        v := v + assets[symbol] * table.close[date][symbol];
      }
      i := i + 1;
    }
    assert symbols[..i] == symbols;
  }

  /** The body of the date loop: credit the investment, buy, and value the symbol list. */
  method InvestOn(b: Book, date: Date, investment: real, symbols: seq<Symbol>, table: PriceTable) returns (r: Book, assetsValue: real)
    requires table.Valid() && table.HasDate(date) && |symbols| > 0 && forall s :: s in symbols ==> s in b.assets
    ensures r == InvestWeek(b, date, investment, symbols, table)
    ensures assetsValue == AssetsValue(symbols, r.assets, date, table)
  {
    r := b.(cash := b.cash + investment);
    var per := PerSymbol(investment, |symbols|);
    r := BuyEqualSplit(r, symbols, per, date, table);
    assetsValue := AssetsValueOn(r.assets, symbols, date, table);
  }

  /** The body of the date loop of the plain strategy: invest, value, record. */
  method DcaStep(p: DcaPortfolio, date: Date, weekly: real, symbols: seq<Symbol>, table: PriceTable) returns (r: DcaPortfolio)
    requires table.Valid() && table.HasDate(date) && |symbols| > 0 && forall s :: s in symbols ==> s in p.book.assets
    ensures r == DcaWeek(p, date, weekly, symbols, table)
  {
    var book, assetsValue := InvestOn(p.book, date, weekly, symbols, table);
    r := DcaPortfolio(book, p.history + [Snapshot(date, book.cash, assetsValue, book.cash + assetsValue)]);
  }

  /** The date loop of the plain strategy, on the portfolio value. */
  method RunDcaDates(p0: DcaPortfolio, dates: seq<Date>, weekly: real, symbols: seq<Symbol>, table: PriceTable) returns (p: DcaPortfolio)
    requires table.Valid() && |symbols| > 0 && forall s :: s in symbols ==> s in p0.book.assets
    requires forall d :: d in dates ==> table.HasDate(d)
    ensures p == DcaRun(p0, dates, weekly, symbols, table)
  {
    p := p0;
    var i := 0;
    while i < |dates|
      invariant 0 <= i <= |dates|
      invariant forall s :: s in symbols ==> s in p.book.assets
      invariant p == DcaRun(p0, dates[..i], weekly, symbols, table)
    {
      DcaRunExtend(p0, dates, i, weekly, symbols, table);
      p := DcaStep(p, dates[i], weekly, symbols, table);
      i := i + 1;
    }
    assert dates[..i] == dates;
  }

  /** One more valid date of the plain run is one more `DcaWeek`. */
  lemma DcaRunExtend(p0: DcaPortfolio, dates: seq<Date>, i: nat, weekly: real, symbols: seq<Symbol>, table: PriceTable)
    requires table.Valid() && |symbols| > 0 && forall s :: s in symbols ==> s in p0.book.assets
    requires i < |dates|
    ensures forall s :: s in symbols ==> s in DcaRun(p0, dates[..i], weekly, symbols, table).book.assets
    ensures DcaRun(p0, dates[..i + 1], weekly, symbols, table)
         == DcaWeek(DcaRun(p0, dates[..i], weekly, symbols, table), dates[i], weekly, symbols, table)
  {
    assert dates[..i + 1][..i] == dates[..i];
  }

  /** The body of the date loop of the Fear & Greed strategy. */
  method FgStep(p: FgPortfolio, date: Date, base: real, symbols: seq<Symbol>,
                fearGreedData: map<Symbol, map<Date, real>>, table: PriceTable) returns (r: FgPortfolio)
    requires table.Valid() && table.HasDate(date) && |symbols| > 0 && forall s :: s in symbols ==> s in p.book.assets
    ensures r == FgWeek(p, date, base, symbols, fearGreedData, table)
  {
    var fgIndex := 50.0;
    if "SPY" in fearGreedData && date in fearGreedData["SPY"] {
      fgIndex := fearGreedData["SPY"][date];
    }
    var adjustedInvestment := AdjustedInvestment(base, fgIndex);
    var book, assetsValue := InvestOn(p.book, date, adjustedInvestment, symbols, table);
    r := FgPortfolio(book, p.history + [FgSnapshot(date, fgIndex, adjustedInvestment, book.cash, assetsValue, book.cash + assetsValue)]);
  }

  /** The date loop of the Fear & Greed strategy, on the portfolio value. */
  method RunFgDates(p0: FgPortfolio, dates: seq<Date>, base: real, symbols: seq<Symbol>,
                    fearGreedData: map<Symbol, map<Date, real>>, table: PriceTable) returns (p: FgPortfolio)
    requires table.Valid() && |symbols| > 0 && forall s :: s in symbols ==> s in p0.book.assets
    requires forall d :: d in dates ==> table.HasDate(d)
    ensures p == FgRun(p0, dates, base, symbols, fearGreedData, table)
  {
    p := p0;
    var i := 0;
    while i < |dates|
      invariant 0 <= i <= |dates|
      invariant forall s :: s in symbols ==> s in p.book.assets
      invariant p == FgRun(p0, dates[..i], base, symbols, fearGreedData, table)
    {
      assert dates[..i + 1][..i] == dates[..i];
      p := FgStep(p, dates[i], base, symbols, fearGreedData, table);
      i := i + 1;
    }
    assert dates[..i] == dates;
  }

  // ---------------------------------------------------------------------------
  // The strategy objects

  class DcaStrategy {
    const weeklyInvestment: real
    const symbols: seq<Symbol>
    var portfolio: DcaPortfolio

    constructor (weeklyInvestment: real, symbols: seq<Symbol>)
      ensures this.weeklyInvestment == weeklyInvestment && this.symbols == ChosenSymbols(symbols)
      ensures portfolio == DcaPortfolio(EmptyBook(this.symbols), [])
    {
      this.weeklyInvestment := weeklyInvestment;
      this.symbols := ChosenSymbols(symbols);
      portfolio := DcaPortfolio(EmptyBook(ChosenSymbols(symbols)), []);
    }

    /**
     * `run_backtest` over a given Friday schedule and price frame: nothing happens
     * on an empty frame; otherwise the portfolio is reset and every valid date is
     * invested, and the report of `_calculate_results` is returned.
     */
    method RunBacktest(schedule: seq<Date>, table: PriceTable) returns (report: Option<Report>)
      requires table.Valid() && symbols != []
      modifies this
      ensures table.IsEmpty() ==> portfolio == old(portfolio) && report == None
      ensures !table.IsEmpty() ==>
        && portfolio == DcaRun(DcaPortfolio(EmptyBook(symbols), []), ValidDates(schedule, table), weeklyInvestment, symbols, table)
        && report == DcaReport(portfolio, weeklyInvestment, symbols)
    {
      if |table.columns| == 0 || |table.index| == 0 {
        return None;
      }
      var validDates := ValidDates(schedule, table);
      portfolio := DcaPortfolio(EmptyBook(symbols), []);
      portfolio := RunDcaDates(portfolio, validDates, weeklyInvestment, symbols, table);
      report := DcaReport(portfolio, weeklyInvestment, symbols);
    }
  }

  class FearGreedBasedStrategy {
    const weeklyInvestment: real
    const symbols: seq<Symbol>
    var portfolio: FgPortfolio

    constructor (weeklyInvestment: real, symbols: seq<Symbol>)
      ensures this.weeklyInvestment == weeklyInvestment && this.symbols == ChosenSymbols(symbols)
      ensures portfolio == FgPortfolio(EmptyBook(this.symbols), [])
    {
      this.weeklyInvestment := weeklyInvestment;
      this.symbols := ChosenSymbols(symbols);
      portfolio := FgPortfolio(EmptyBook(ChosenSymbols(symbols)), []);
    }

    /** `run_backtest` of the Fear & Greed variant; `fearGreedData` holds each loaded symbol's index readings. */
    method RunBacktest(schedule: seq<Date>, table: PriceTable, fearGreedData: map<Symbol, map<Date, real>>)
      returns (report: Option<Report>)
      requires table.Valid() && symbols != []
      modifies this
      ensures table.IsEmpty() ==> portfolio == old(portfolio) && report == None
      ensures !table.IsEmpty() ==>
        && portfolio == FgRun(FgPortfolio(EmptyBook(symbols), []), ValidDates(schedule, table), weeklyInvestment,
                              symbols, fearGreedData, table)
        && report == FgReport(portfolio, symbols)
    {
      if |table.columns| == 0 || |table.index| == 0 {
        return None;
      }
      var validDates := ValidDates(schedule, table);
      portfolio := FgPortfolio(EmptyBook(symbols), []);
      var baseInvestment := weeklyInvestment;
      portfolio := RunFgDates(portfolio, validDates, baseInvestment, symbols, fearGreedData, table);
      report := FgReport(portfolio, symbols);
    }
  }
}
