/** What the stand-alone DCA simulators promise: accounting of cash and shares, one snapshot per valid date, report facts. */
module DcaProperties {
  import opened Wrappers
  import opened Prices
  import opened AlgoTrading
  import opened WeeklyDca

  // ---------------------------------------------------------------------------
  // Counting helpers

  /** How many entries of the symbol list have a price on `date`: the buys of one week. */
  function PricedCount(symbols: seq<Symbol>, date: Date, table: PriceTable): (n: nat)
    ensures n <= |symbols|
  {
    if symbols == [] then 0
    else PricedCount(symbols[..|symbols| - 1], date, table) + (if table.Priced(date, symbols[|symbols| - 1]) then 1 else 0)
  }

  /** How often `s` appears in the symbol list. */
  function Occurrences(s: Symbol, symbols: seq<Symbol>): nat {
    if symbols == [] then 0
    else Occurrences(s, symbols[..|symbols| - 1]) + (if symbols[|symbols| - 1] == s then 1 else 0)
  }

  lemma {:induction false} RepeatedMonotone(x: real, k: nat, n: nat)
    requires x >= 0.0 && k <= n
    ensures 0.0 <= Repeated(x, k) <= Repeated(x, n)
    decreases n
  {
    if k < n {
      RepeatedMonotone(x, k, n - 1);
    } else if n > 0 {
      RepeatedMonotone(x, n - 1, n - 1);
    }
  }

  /** Splitting `investment` over `n` entries and buying all of them spends exactly `investment`. */
  lemma RepeatedShare(investment: real, n: nat)
    requires n > 0
    ensures Repeated(PerSymbol(investment, n), n) == investment
  {
    RepeatedIsProduct(PerSymbol(investment, n), n);
  }

  // ---------------------------------------------------------------------------
  // One week

  /** The buy loop's cash: it drops by `per` for every priced entry of the list, duplicates included. */
  lemma {:induction false} BuyEachSpends(b: Book, symbols: seq<Symbol>, per: real, date: Date, table: PriceTable)
    requires table.Valid() && forall s :: s in symbols ==> s in b.assets
    ensures BuyEach(b, symbols, per, date, table).cash == b.cash - Repeated(per, PricedCount(symbols, date, table))
  {
    if symbols != [] {
      var prefix := symbols[..|symbols| - 1];
      var last := symbols[|symbols| - 1];
      assert forall s :: s in prefix ==> s in symbols;
      BuyEachSpends(b, prefix, per, date, table);
      var before := BuyEach(b, prefix, per, date, table);
      assert BuyEach(b, symbols, per, date, table) == BuyShares(before, last, per, date, table);
      assert PricedCount(symbols, date, table) == PricedCount(prefix, date, table) + (if table.Priced(date, last) then 1 else 0);
    }
  }

  /**
   * The buy loop's holdings: a priced symbol gains `per / price` shares per
   * occurrence in the list, and an unpriced one is untouched.
   */
  lemma {:induction false} BuyEachHoldings(b: Book, symbols: seq<Symbol>, per: real, date: Date, table: PriceTable)
    requires table.Valid() && forall s :: s in symbols ==> s in b.assets
    ensures forall s :: s in b.assets && !table.Priced(date, s) ==> BuyEach(b, symbols, per, date, table).assets[s] == b.assets[s]
    ensures forall s :: s in b.assets && table.Priced(date, s) ==>
      BuyEach(b, symbols, per, date, table).assets[s]
        == b.assets[s] + Repeated(SharesFor(per, table.close[date][s]), Occurrences(s, symbols))
  {
    if symbols != [] {
      var prefix := symbols[..|symbols| - 1];
      var last := symbols[|symbols| - 1];
      assert forall s :: s in prefix ==> s in symbols;
      BuyEachHoldings(b, prefix, per, date, table);
      var before := BuyEach(b, prefix, per, date, table);
      assert BuyEach(b, symbols, per, date, table) == BuyShares(before, last, per, date, table);
      if table.Priced(date, last) {
        table.PricedInColumns(date, last);
      }
    }
  }

  lemma InvestWeekCash(b: Book, date: Date, investment: real, symbols: seq<Symbol>, table: PriceTable)
    requires table.Valid() && |symbols| > 0 && forall s :: s in symbols ==> s in b.assets
    ensures InvestWeek(b, date, investment, symbols, table).cash
         == b.cash + investment - Repeated(PerSymbol(investment, |symbols|), PricedCount(symbols, date, table))
  {
    BuyEachSpends(b.(cash := b.cash + investment), symbols, PerSymbol(investment, |symbols|), date, table);
  }

  /** When every entry has a price the whole investment is spent; when none has, all of it stays cash. */
  lemma InvestWeekSpending(b: Book, date: Date, investment: real, symbols: seq<Symbol>, table: PriceTable)
    requires table.Valid() && |symbols| > 0 && forall s :: s in symbols ==> s in b.assets
    ensures PricedCount(symbols, date, table) == |symbols| ==> InvestWeek(b, date, investment, symbols, table).cash == b.cash
    ensures PricedCount(symbols, date, table) == 0 ==> InvestWeek(b, date, investment, symbols, table).cash == b.cash + investment
    ensures investment >= 0.0 ==>
      b.cash <= InvestWeek(b, date, investment, symbols, table).cash <= b.cash + investment
  {
    InvestWeekCash(b, date, investment, symbols, table);
    RepeatedShare(investment, |symbols|);
    if investment >= 0.0 {
      assert PerSymbol(investment, |symbols|) >= 0.0;
      RepeatedMonotone(PerSymbol(investment, |symbols|), PricedCount(symbols, date, table), |symbols|);
    }
  }

  /** Shares never decrease when the investment is not negative. */
  lemma InvestWeekKeepsShares(b: Book, date: Date, investment: real, symbols: seq<Symbol>, table: PriceTable)
    requires table.Valid() && |symbols| > 0 && forall s :: s in symbols ==> s in b.assets
    requires investment >= 0.0
    ensures forall s :: s in b.assets ==> InvestWeek(b, date, investment, symbols, table).assets[s] >= b.assets[s]
  {
    var per := PerSymbol(investment, |symbols|);
    assert per >= 0.0;
    BuyEachHoldings(b.(cash := b.cash + investment), symbols, per, date, table);
    forall s | s in b.assets && table.Priced(date, s)
      ensures InvestWeek(b, date, investment, symbols, table).assets[s] >= b.assets[s]
    {
      table.PricedInColumns(date, s);
      assert SharesFor(per, table.close[date][s]) >= 0.0;
      RepeatedMonotone(SharesFor(per, table.close[date][s]), 0, Occurrences(s, symbols));
    }
  }

  // ---------------------------------------------------------------------------
  // The plain strategy over many dates

  /** One snapshot per valid date, in date order, appended after the old history; every total adds up. */
  lemma {:induction false} DcaRunHistory(p: DcaPortfolio, dates: seq<Date>, weekly: real, symbols: seq<Symbol>, table: PriceTable)
    requires table.Valid() && |symbols| > 0 && forall s :: s in symbols ==> s in p.book.assets
    requires SnapshotsAddUp(p.history)
    ensures var r := DcaRun(p, dates, weekly, symbols, table);
      && |r.history| == |p.history| + |dates|
      && r.history[..|p.history|] == p.history
      && (forall i :: 0 <= i < |dates| ==> r.history[|p.history| + i].date == dates[i])
      && SnapshotsAddUp(r.history)
      && (dates != [] ==> r.history[|r.history| - 1].cash == r.book.cash)
  {
    if dates != [] {
      var prefix := dates[..|dates| - 1];
      DcaRunHistory(p, prefix, weekly, symbols, table);
      var before := DcaRun(p, prefix, weekly, symbols, table);
      assert DcaRun(p, dates, weekly, symbols, table) == DcaWeek(before, dates[|dates| - 1], weekly, symbols, table);
      var r := DcaRun(p, dates, weekly, symbols, table);
      assert r.history == before.history + [r.history[|r.history| - 1]];
      assert r.history[..|before.history|] == before.history;
      forall i | 0 <= i < |dates|
        ensures r.history[|p.history| + i].date == dates[i]
      {
        if i < |prefix| {
          assert r.history[|p.history| + i] == before.history[|p.history| + i];
        }
      }
    }
  }

  /** The money of the plain strategy: every valid date credits `weekly`, every priced entry spends one share of it. */
  function Buys(dates: seq<Date>, symbols: seq<Symbol>, table: PriceTable): nat {
    if dates == [] then 0 else Buys(dates[..|dates| - 1], symbols, table) + PricedCount(symbols, dates[|dates| - 1], table)
  }

  lemma {:induction false} DcaRunCash(p: DcaPortfolio, dates: seq<Date>, weekly: real, symbols: seq<Symbol>, table: PriceTable)
    requires table.Valid() && |symbols| > 0 && forall s :: s in symbols ==> s in p.book.assets
    ensures DcaRun(p, dates, weekly, symbols, table).book.cash
         == p.book.cash + Repeated(weekly, |dates|) - Repeated(PerSymbol(weekly, |symbols|), Buys(dates, symbols, table))
    ensures weekly >= 0.0 ==>
      p.book.cash <= DcaRun(p, dates, weekly, symbols, table).book.cash <= p.book.cash + Repeated(weekly, |dates|)
    ensures (forall d :: d in dates ==> PricedCount(symbols, d, table) == |symbols|) ==>
      DcaRun(p, dates, weekly, symbols, table).book.cash == p.book.cash
  {
    if dates != [] {
      var prefix := dates[..|dates| - 1];
      var d := dates[|dates| - 1];
      DcaRunCash(p, prefix, weekly, symbols, table);
      var before := DcaRun(p, prefix, weekly, symbols, table);
      assert DcaRun(p, dates, weekly, symbols, table).book == InvestWeek(before.book, d, weekly, symbols, table);
      InvestWeekCash(before.book, d, weekly, symbols, table);
      InvestWeekSpending(before.book, d, weekly, symbols, table);
      RepeatedSplit(PerSymbol(weekly, |symbols|), Buys(prefix, symbols, table), PricedCount(symbols, d, table));
      assert forall x :: x in prefix ==> x in dates;
    }
  }

  lemma {:induction false} RepeatedSplit(x: real, m: nat, n: nat)
    ensures Repeated(x, m + n) == Repeated(x, m) + Repeated(x, n)
    decreases n
  {
    if n > 0 {
      RepeatedSplit(x, m, n - 1);
    }
  }

  /** Share counts never fall, so a run from the reset book holds no negative position. */
  lemma {:induction false} DcaRunKeepsShares(p: DcaPortfolio, dates: seq<Date>, weekly: real, symbols: seq<Symbol>, table: PriceTable)
    requires table.Valid() && |symbols| > 0 && forall s :: s in symbols ==> s in p.book.assets
    requires weekly >= 0.0
    ensures forall s :: s in p.book.assets ==> DcaRun(p, dates, weekly, symbols, table).book.assets[s] >= p.book.assets[s]
  {
    if dates != [] {
      var prefix := dates[..|dates| - 1];
      DcaRunKeepsShares(p, prefix, weekly, symbols, table);
      var before := DcaRun(p, prefix, weekly, symbols, table);
      assert DcaRun(p, dates, weekly, symbols, table).book == InvestWeek(before.book, dates[|dates| - 1], weekly, symbols, table);
      InvestWeekKeepsShares(before.book, dates[|dates| - 1], weekly, symbols, table);
    }
  }

  // ---------------------------------------------------------------------------
  // The report

  /** `sum(values)` over the dict order equals the share count the percentages divide by. */
  function PercentTotal(lines: seq<Holding>): real {
    if lines == [] then 0.0 else PercentTotal(lines[..|lines| - 1]) + lines[|lines| - 1].percentage
  }

  lemma PercentageAdds(a: real, b: real, t: real)
    requires t > 0.0
    ensures Percentage(a, t) + Percentage(b, t) == Percentage(a + b, t)
  {
  }

  lemma {:induction false} AllocationLinesTotal(order: seq<Symbol>, assets: map<Symbol, real>, total: real)
    requires forall s :: s in order ==> s in assets
    requires total > 0.0
    ensures PercentTotal(AllocationLines(order, assets, total)) == Percentage(ShareCount(order, assets), total)
  {
    if order != [] {
      var prefix := order[..|order| - 1];
      var last := order[|order| - 1];
      assert forall s :: s in prefix ==> s in order;
      AllocationLinesTotal(prefix, assets, total);
      var lines := AllocationLines(order, assets, total);
      var head := AllocationLines(prefix, assets, total);
      assert lines == head + [Holding(last, assets[last], Percentage(assets[last], total))];
      assert lines[..|lines| - 1] == head;
      assert PercentTotal(lines) == PercentTotal(head) + Percentage(assets[last], total);
      assert ShareCount(order, assets) == ShareCount(prefix, assets) + assets[last];
      PercentageAdds(ShareCount(prefix, assets), assets[last], total);
    } else {
      assert Percentage(0.0, total) == 0.0;
    }
  }

  lemma AllocationLinesZero(order: seq<Symbol>, assets: map<Symbol, real>, total: real)
    requires forall s :: s in order ==> s in assets
    requires total <= 0.0
    ensures forall i :: 0 <= i < |order| ==> AllocationLines(order, assets, total)[i].percentage == 0.0
  {
    var lines := AllocationLines(order, assets, total);
    forall i | 0 <= i < |order|
      ensures lines[i].percentage == 0.0
    {
      AllocationLineAt(order, assets, total, i);
    }
  }

  lemma {:induction false} AllocationLineAt(order: seq<Symbol>, assets: map<Symbol, real>, total: real, i: nat)
    requires forall s :: s in order ==> s in assets
    requires i < |order|
    ensures AllocationLines(order, assets, total)[i].percentage == Percentage(assets[order[i]], total)
  {
    var prefix := order[..|order| - 1];
    assert forall s :: s in prefix ==> s in order;
    if i < |prefix| {
      AllocationLineAt(prefix, assets, total, i);
    }
  }

  lemma {:induction false} ShareCountNonNegative(order: seq<Symbol>, assets: map<Symbol, real>)
    requires forall s :: s in order ==> s in assets && assets[s] >= 0.0
    ensures ShareCount(order, assets) >= 0.0
    ensures forall s :: s in order ==> assets[s] <= ShareCount(order, assets)
  {
    if order != [] {
      ShareCountNonNegative(order[..|order| - 1], assets);
      assert forall s :: s in order ==> s in order[..|order| - 1] || s == order[|order| - 1];
    }
  }

  /**
   * The final allocation lists every symbol once, in dict order; when any shares
   * are held the percentages add up to 100 and lie in [0, 100], otherwise they are all 0.
   */
  lemma AllocationPercentages(symbols: seq<Symbol>, assets: map<Symbol, real>)
    requires forall s :: s in symbols ==> s in assets && assets[s] >= 0.0
    ensures var lines := Allocation(symbols, assets);
      && |lines| == |Dedup(symbols)|
      && (forall i :: 0 <= i < |lines| ==> lines[i].symbol == Dedup(symbols)[i] && lines[i].shares == assets[lines[i].symbol])
      && (ShareCount(Dedup(symbols), assets) > 0.0 ==>
           PercentTotal(lines) == 100.0 && forall i :: 0 <= i < |lines| ==> 0.0 <= lines[i].percentage <= 100.0)
      && (ShareCount(Dedup(symbols), assets) <= 0.0 ==> forall i :: 0 <= i < |lines| ==> lines[i].percentage == 0.0)
  {
    var order := Dedup(symbols);
    var total := ShareCount(order, assets);
    ShareCountNonNegative(order, assets);
    var lines := Allocation(symbols, assets);
    assert lines == AllocationLines(order, assets, total);
    if total > 0.0 {
      AllocationLinesTotal(order, assets, total);
      PercentageWhole(total);
      forall i | 0 <= i < |lines|
        ensures 0.0 <= lines[i].percentage <= 100.0
      {
        assert order[i] in order;
        AllocationLineAt(order, assets, total, i);
        PercentageBounds(assets[order[i]], total);
      }
    } else {
      AllocationLinesZero(order, assets, total);
    }
  }

  lemma PercentageWhole(t: real)
    requires t > 0.0
    ensures Percentage(t, t) == 100.0
  {
  }

  lemma PercentageBounds(a: real, t: real)
    requires 0.0 <= a <= t && t > 0.0
    ensures 0.0 <= Percentage(a, t) <= 100.0
  {
    assert a / t <= 1.0;
  }

  /**
   * The report of a plain run: absent exactly when no Friday was a trading date;
   * otherwise one week per valid date, from the first to the last, the total invested
   * is the sum of the weekly credits, and (for a non-negative weekly sum) the cash
   * left over lies between zero and the total invested.
   */
  lemma DcaReportFacts(schedule: seq<Date>, weekly: real, symbols: seq<Symbol>, table: PriceTable)
    requires table.Valid() && |symbols| > 0
    ensures var dates := ValidDates(schedule, table);
      var p := DcaRun(DcaPortfolio(EmptyBook(symbols), []), dates, weekly, symbols, table);
      var report := DcaReport(p, weekly, symbols);
      && (report.None? <==> dates == [])
      && (report.Some? ==>
           && report.value.numWeeks == |dates|
           && report.value.firstDate == dates[0]
           && report.value.lastDate == dates[|dates| - 1]
           && report.value.totalInvested == Repeated(weekly, |dates|)
           && report.value.cash == p.book.cash
           && (weekly >= 0.0 ==> 0.0 <= report.value.cash <= report.value.totalInvested))
  {
    var dates := ValidDates(schedule, table);
    var p0 := DcaPortfolio(EmptyBook(symbols), []);
    DcaRunHistory(p0, dates, weekly, symbols, table);
    var p := DcaRun(p0, dates, weekly, symbols, table);
    DcaReportShape(p, weekly, symbols);
    if dates != [] {
      DcaRunCash(p0, dates, weekly, symbols, table);
      assert p.history[0].date == dates[0];
      assert p.history[|dates| - 1].date == dates[|dates| - 1];
    }
  }

  /** The report reads the history: its length, its first and last dates, and `weekly` once per week invested. */
  lemma DcaReportShape(p: DcaPortfolio, weekly: real, symbols: seq<Symbol>)
    requires forall s :: s in symbols ==> s in p.book.assets
    ensures DcaReport(p, weekly, symbols).None? <==> p.history == []
    ensures DcaReport(p, weekly, symbols).Some? ==>
      var r := DcaReport(p, weekly, symbols).value;
      && r.numWeeks == |p.history|
      && r.firstDate == p.history[0].date
      && r.lastDate == p.history[|p.history| - 1].date
      && r.totalInvested == Repeated(weekly, |p.history|)
      && r.finalValue == p.history[|p.history| - 1].totalValue
      && r.totalReturn == TotalReturn(r.finalValue, r.totalInvested)
      && r.cash == p.book.cash
      && r.allocation == Allocation(symbols, p.book.assets)
  {
    RepeatedIsProduct(weekly, |p.history|);
  }

  // ---------------------------------------------------------------------------
  // The Fear & Greed variant

  /**
   * The adjusted investment: the neutral 50 invests the base sum, a lower
   * reading invests more and a higher one less, and a reading in [0, 100]
   * keeps the sum within half and one and a half times the base.
   */
  lemma AdjustedInvestmentBounds(base: real, fg: real)
    requires base >= 0.0
    ensures fg == 50.0 ==> AdjustedInvestment(base, fg) == base
    ensures 0.0 <= fg <= 100.0 ==> 0.5 * base <= AdjustedInvestment(base, fg) <= 1.5 * base
    ensures fg <= 150.0 ==> AdjustedInvestment(base, fg) >= 0.0
  {
    if 0.0 <= fg <= 100.0 {
      AdjustedRange(base, fg);
    }
    if fg <= 150.0 {
      var f := 1.0 + (50.0 - fg) / 100.0;
      NonNegativeFactor(base, f);
    }
  }

  lemma AdjustedRange(base: real, fg: real)
    requires base >= 0.0 && 0.0 <= fg <= 100.0
    ensures 0.5 * base <= AdjustedInvestment(base, fg) <= 1.5 * base
  {
    var f := 1.0 + (50.0 - fg) / 100.0;
    ScaleBetween(base, f, 0.5, 1.5);
  }

  lemma NonNegativeFactor(base: real, f: real)
    requires base >= 0.0 && f >= 0.0
    ensures base * f >= 0.0
  {
  }

  lemma ScaleBetween(base: real, f: real, lo: real, hi: real)
    requires base >= 0.0 && lo <= f <= hi
    ensures lo * base <= base * f <= hi * base
  {
  }

  /** For a positive base sum, a more fearful reading always invests strictly more. */
  lemma AdjustedInvestmentMonotone(base: real, fg1: real, fg2: real)
    requires base > 0.0 && fg1 < fg2
    ensures AdjustedInvestment(base, fg1) > AdjustedInvestment(base, fg2)
  {
    var f1 := 1.0 + (50.0 - fg1) / 100.0;
    var f2 := 1.0 + (50.0 - fg2) / 100.0;
    assert f1 > f2;
    assert base * f1 - base * f2 == base * (f1 - f2);
  }

  /** A history entry without the index and investment columns. */
  function Plain(h: seq<FgSnapshot>): (r: seq<Snapshot>)
    ensures |r| == |h|
  {
    if h == [] then []
    else
      var e := h[|h| - 1];
      Plain(h[..|h| - 1]) + [Snapshot(e.date, e.cash, e.assetsValue, e.totalValue)]
  }

  /** With no SPY reading other than 50 on any valid date, the variant behaves exactly as the plain strategy. */
  lemma {:induction false} FgWithoutReadingsIsDca(p: FgPortfolio, q: DcaPortfolio, dates: seq<Date>, base: real, symbols: seq<Symbol>,
                                                  fearGreedData: map<Symbol, map<Date, real>>, table: PriceTable)
    requires table.Valid() && |symbols| > 0 && forall s :: s in symbols ==> s in p.book.assets
    requires p.book == q.book && Plain(p.history) == q.history
    requires forall d :: d in dates ==> FearGreedIndex(fearGreedData, d) == 50.0
    ensures var r := FgRun(p, dates, base, symbols, fearGreedData, table);
      && r.book == DcaRun(q, dates, base, symbols, table).book
      && Plain(r.history) == DcaRun(q, dates, base, symbols, table).history
      && Invested(r.history) == Invested(p.history) + Repeated(base, |dates|)
  {
    if dates != [] {
      var prefix := dates[..|dates| - 1];
      var d := dates[|dates| - 1];
      assert forall x :: x in prefix ==> x in dates;
      FgWithoutReadingsIsDca(p, q, prefix, base, symbols, fearGreedData, table);
      var before := FgRun(p, prefix, base, symbols, fearGreedData, table);
      assert FgRun(p, dates, base, symbols, fearGreedData, table) == FgWeek(before, d, base, symbols, fearGreedData, table);
      assert DcaRun(q, dates, base, symbols, table) == DcaWeek(DcaRun(q, prefix, base, symbols, table), d, base, symbols, table);
      FgNeutralWeekIsDca(before, DcaRun(q, prefix, base, symbols, table), d, base, symbols, fearGreedData, table);
    }
  }

  lemma FgNeutralWeekIsDca(p: FgPortfolio, q: DcaPortfolio, d: Date, base: real, symbols: seq<Symbol>,
                           fearGreedData: map<Symbol, map<Date, real>>, table: PriceTable)
    requires table.Valid() && |symbols| > 0 && forall s :: s in symbols ==> s in p.book.assets
    requires p.book == q.book && Plain(p.history) == q.history
    requires FearGreedIndex(fearGreedData, d) == 50.0
    ensures var r := FgWeek(p, d, base, symbols, fearGreedData, table);
      && r.book == DcaWeek(q, d, base, symbols, table).book
      && Plain(r.history) == DcaWeek(q, d, base, symbols, table).history
      && Invested(r.history) == Invested(p.history) + base
  {
    AdjustedNeutral(base);
    var b := InvestWeek(p.book, d, base, symbols, table);
    var v := AssetsValue(symbols, b.assets, d, table);
    var r := FgWeek(p, d, base, symbols, fearGreedData, table);
    assert r.history == p.history + [FgSnapshot(d, 50.0, base, b.cash, v, b.cash + v)];
    assert r.history[..|r.history| - 1] == p.history;
  }

  lemma AdjustedNeutral(base: real)
    ensures AdjustedInvestment(base, 50.0) == base
  {
  }

  /** One entry per valid date, recording that date's reading and the investment it led to. */
  lemma {:induction false} FgRunHistory(p: FgPortfolio, dates: seq<Date>, base: real, symbols: seq<Symbol>,
                                        fearGreedData: map<Symbol, map<Date, real>>, table: PriceTable)
    requires table.Valid() && |symbols| > 0 && forall s :: s in symbols ==> s in p.book.assets
    ensures var r := FgRun(p, dates, base, symbols, fearGreedData, table);
      && |r.history| == |p.history| + |dates|
      && r.history[..|p.history|] == p.history
      && (forall i :: 0 <= i < |dates| ==>
           var e := r.history[|p.history| + i];
           && e.date == dates[i]
           && e.fearGreedIndex == FearGreedIndex(fearGreedData, dates[i])
           && e.investment == AdjustedInvestment(base, e.fearGreedIndex)
           && e.totalValue == e.cash + e.assetsValue)
  {
    if dates != [] {
      var prefix := dates[..|dates| - 1];
      FgRunHistory(p, prefix, base, symbols, fearGreedData, table);
      var before := FgRun(p, prefix, base, symbols, fearGreedData, table);
      var r := FgRun(p, dates, base, symbols, fearGreedData, table);
      assert r == FgWeek(before, dates[|dates| - 1], base, symbols, fearGreedData, table);
      assert r.history[..|before.history|] == before.history;
      forall i | 0 <= i < |dates|
        ensures r.history[|p.history| + i].date == dates[i]
        ensures r.history[|p.history| + i].fearGreedIndex == FearGreedIndex(fearGreedData, dates[i])
        ensures r.history[|p.history| + i].investment == AdjustedInvestment(base, r.history[|p.history| + i].fearGreedIndex)
        ensures r.history[|p.history| + i].totalValue == r.history[|p.history| + i].cash + r.history[|p.history| + i].assetsValue
      {
        if i < |prefix| {
          assert r.history[|p.history| + i] == before.history[|p.history| + i];
        }
      }
    }
  }

  /**
   * The cash of the variant never falls below its starting value and never
   * rises above it by more than what the new entries record as invested,
   * provided every reading is at most 150 (so no investment is negative).
   */
  lemma {:induction false} FgRunCash(p: FgPortfolio, dates: seq<Date>, base: real, symbols: seq<Symbol>,
                                     fearGreedData: map<Symbol, map<Date, real>>, table: PriceTable)
    requires table.Valid() && |symbols| > 0 && forall s :: s in symbols ==> s in p.book.assets
    requires base >= 0.0 && forall d :: d in dates ==> FearGreedIndex(fearGreedData, d) <= 150.0
    ensures var r := FgRun(p, dates, base, symbols, fearGreedData, table);
      p.book.cash <= r.book.cash <= p.book.cash + (Invested(r.history) - Invested(p.history))
  {
    if dates != [] {
      var prefix := dates[..|dates| - 1];
      var d := dates[|dates| - 1];
      assert forall x :: x in prefix ==> x in dates;
      FgRunCash(p, prefix, base, symbols, fearGreedData, table);
      var before := FgRun(p, prefix, base, symbols, fearGreedData, table);
      var investment := AdjustedInvestment(base, FearGreedIndex(fearGreedData, d));
      AdjustedInvestmentBounds(base, FearGreedIndex(fearGreedData, d));
      var r := FgRun(p, dates, base, symbols, fearGreedData, table);
      assert r == FgWeek(before, d, base, symbols, fearGreedData, table);
      assert r.history[..|r.history| - 1] == before.history;
      InvestWeekSpending(before.book, d, investment, symbols, table);
    }
  }

  /** Readings in [0, 100] keep the total invested within half and one and a half times the plain total. */
  lemma {:induction false} FgInvestedBounds(p: FgPortfolio, dates: seq<Date>, base: real, symbols: seq<Symbol>,
                                            fearGreedData: map<Symbol, map<Date, real>>, table: PriceTable)
    requires table.Valid() && |symbols| > 0 && forall s :: s in symbols ==> s in p.book.assets
    requires base >= 0.0 && forall d :: d in dates ==> 0.0 <= FearGreedIndex(fearGreedData, d) <= 100.0
    ensures var added := Invested(FgRun(p, dates, base, symbols, fearGreedData, table).history) - Invested(p.history);
      Repeated(0.5 * base, |dates|) <= added <= Repeated(1.5 * base, |dates|)
  {
    if dates != [] {
      var prefix := dates[..|dates| - 1];
      var d := dates[|dates| - 1];
      assert forall x :: x in prefix ==> x in dates;
      FgInvestedBounds(p, prefix, base, symbols, fearGreedData, table);
      var before := FgRun(p, prefix, base, symbols, fearGreedData, table);
      AdjustedInvestmentBounds(base, FearGreedIndex(fearGreedData, d));
      var r := FgRun(p, dates, base, symbols, fearGreedData, table);
      assert r == FgWeek(before, d, base, symbols, fearGreedData, table);
      assert r.history[..|r.history| - 1] == before.history;
    }
  }

  /**
   * The summary of the Fear & Greed backtest: no report exactly when no date
   * is valid; otherwise one week per valid date, the invested total is what
   * the entries record, the cash is the book's, and readings in [0, 100] keep
   * the invested total within half and one and a half times the base per week
   * and the cash between 0 and that total.
   */
  lemma FgReportFacts(schedule: seq<Date>, base: real, symbols: seq<Symbol>,
                      fearGreedData: map<Symbol, map<Date, real>>, table: PriceTable)
    requires table.Valid() && |symbols| > 0
    ensures var dates := ValidDates(schedule, table);
      var p := FgRun(FgPortfolio(EmptyBook(symbols), []), dates, base, symbols, fearGreedData, table);
      var report := FgReport(p, symbols);
      && (report.None? <==> dates == [])
      && (report.Some? ==>
           && report.value.numWeeks == |dates|
           && report.value.firstDate == dates[0]
           && report.value.lastDate == dates[|dates| - 1]
           && report.value.totalInvested == Invested(p.history)
           && report.value.cash == p.book.cash
           && (base >= 0.0 && (forall d :: d in dates ==> 0.0 <= FearGreedIndex(fearGreedData, d) <= 100.0) ==>
                 && Repeated(0.5 * base, |dates|) <= report.value.totalInvested <= Repeated(1.5 * base, |dates|)
                 && 0.0 <= report.value.cash <= report.value.totalInvested))
  {
    var dates := ValidDates(schedule, table);
    var p0 := FgPortfolio(EmptyBook(symbols), []);
    FgRunHistory(p0, dates, base, symbols, fearGreedData, table);
    var p := FgRun(p0, dates, base, symbols, fearGreedData, table);
    if dates != [] {
      assert p.history[0].date == dates[0];
      assert p.history[|dates| - 1].date == dates[|dates| - 1];
      if base >= 0.0 && (forall d :: d in dates ==> 0.0 <= FearGreedIndex(fearGreedData, d) <= 100.0) {
        FgInvestedBounds(p0, dates, base, symbols, fearGreedData, table);
        FgRunCash(p0, dates, base, symbols, fearGreedData, table);
      }
    }
  }
}
