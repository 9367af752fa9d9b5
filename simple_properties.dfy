/** What the simple backtest promises: where a Friday resolves to, one entry per resolved week, cash bounds, metrics. */
module SimpleProperties {
  import opened Wrappers
  import opened Prices
  import opened AlgoTrading
  import opened WeeklyDca
  import opened SimpleDca
  import DcaProperties

  // ---------------------------------------------------------------------------
  // Date resolution

  /** The entry found is the last one in row order that is not after `d`. */
  lemma {:induction false} LastAtOrBeforeIsLast(index: seq<Date>, d: Date)
    requires LastAtOrBefore(index, d).Some?
    ensures exists i :: 0 <= i < |index| && index[i] == LastAtOrBefore(index, d).value
                        && forall j :: i < j < |index| ==> index[j] > d
  {
    var n := |index| - 1;
    if index[n] > d {
      var prefix := index[..n];
      assert forall i :: 0 <= i < n ==> prefix[i] == index[i];
      LastAtOrBeforeIsLast(prefix, d);
      var i :| 0 <= i < |prefix| && prefix[i] == LastAtOrBefore(prefix, d).value
               && forall j :: i < j < |prefix| ==> prefix[j] > d;
      assert index[i] == LastAtOrBefore(index, d).value;
    } else {
      assert index[n] == LastAtOrBefore(index, d).value;
    }
  }

  /** On an ascending index the last entry not after `d` is the latest trading date not after `d`. */
  lemma LastAtOrBeforeIsLatest(index: seq<Date>, d: Date)
    requires forall i, j :: 0 <= i < j < |index| ==> index[i] < index[j]
    requires LastAtOrBefore(index, d).Some?
    ensures forall k :: k in index && k <= d ==> k <= LastAtOrBefore(index, d).value
  {
    LastAtOrBeforeIsLast(index, d);
    var i :| 0 <= i < |index| && index[i] == LastAtOrBefore(index, d).value
             && forall j :: i < j < |index| ==> index[j] > d;
    forall k | k in index && k <= d
      ensures k <= index[i]
    {
      var j :| 0 <= j < |index| && index[j] == k;
      if j < i {
        assert index[j] < index[i];
      }
    }
  }

  /**
   * A scheduled Friday that is a trading date is used as is; otherwise it resolves
   * to an earlier trading date, or to none exactly when no trading date precedes it.
   */
  lemma ResolveFacts(table: PriceTable, d: Date)
    requires table.Valid()
    ensures table.HasDate(d) ==> Resolve(table, d) == Some(d)
    ensures Resolve(table, d).Some? ==> table.HasDate(Resolve(table, d).value) && Resolve(table, d).value <= d
    ensures Resolve(table, d).None? <==> forall k :: table.HasDate(k) ==> k > d
  {
    if !table.HasDate(d) && LastAtOrBefore(table.index, d).None? {
      forall k | table.HasDate(k)
        ensures k > d
      {
        var i :| 0 <= i < |table.index| && table.index[i] == k;
      }
    }
    if forall k :: table.HasDate(k) ==> k > d {
      assert forall i :: 0 <= i < |table.index| ==> table.HasDate(table.index[i]);
    }
  }

  // ---------------------------------------------------------------------------
  // The run

  /** How many scheduled Fridays resolve to a trading date: the weeks that are credited. */
  function Resolved(schedule: seq<Date>, table: PriceTable): (n: nat)
    ensures n <= |schedule|
  {
    if schedule == [] then 0
    else Resolved(schedule[..|schedule| - 1], table) + (if Resolve(table, schedule[|schedule| - 1]).Some? then 1 else 0)
  }

  /** Every entry records a trading date and the weekly sum. */
  predicate Recorded(history: seq<SimpleSnapshot>, weekly: real, table: PriceTable) {
    forall i :: 0 <= i < |history| ==> table.HasDate(history[i].date) && history[i].weeklyInvestment == weekly
  }

  /** One entry per resolved week, appended after the old history, each on a trading date and recording the sum. */
  lemma {:induction false} SimpleRunHistory(p: SimplePortfolio, schedule: seq<Date>, weekly: real, symbols: seq<Symbol>, table: PriceTable)
    requires table.Valid() && |symbols| > 0 && forall s :: s in symbols ==> s in p.book.assets
    requires Recorded(p.history, weekly, table)
    ensures var r := SimpleRun(p, schedule, weekly, symbols, table);
      && |r.history| == |p.history| + Resolved(schedule, table)
      && r.history[..|p.history|] == p.history
      && Recorded(r.history, weekly, table)
  {
    if schedule != [] {
      var prefix := schedule[..|schedule| - 1];
      var friday := schedule[|schedule| - 1];
      SimpleRunHistory(p, prefix, weekly, symbols, table);
      var before := SimpleRun(p, prefix, weekly, symbols, table);
      var r := SimpleRun(p, schedule, weekly, symbols, table);
      assert r == SimpleWeek(before, friday, weekly, symbols, table);
      ResolveFacts(table, friday);
      if Resolve(table, friday).Some? {
        assert r.history[..|before.history|] == before.history;
        assert r.history[..|p.history|] == before.history[..|p.history|];
      }
    }
  }

  /** Cash grows by at most the weekly sum of each resolved week and never falls. */
  lemma {:induction false} SimpleRunCash(p: SimplePortfolio, schedule: seq<Date>, weekly: real, symbols: seq<Symbol>, table: PriceTable)
    requires table.Valid() && |symbols| > 0 && forall s :: s in symbols ==> s in p.book.assets
    requires weekly >= 0.0
    ensures var r := SimpleRun(p, schedule, weekly, symbols, table);
      p.book.cash <= r.book.cash <= p.book.cash + Repeated(weekly, Resolved(schedule, table))
  {
    if schedule != [] {
      var prefix := schedule[..|schedule| - 1];
      var friday := schedule[|schedule| - 1];
      SimpleRunCash(p, prefix, weekly, symbols, table);
      var before := SimpleRun(p, prefix, weekly, symbols, table);
      assert SimpleRun(p, schedule, weekly, symbols, table) == SimpleWeek(before, friday, weekly, symbols, table);
      if Resolve(table, friday).Some? {
        DcaProperties.InvestWeekSpending(before.book, Resolve(table, friday).value, weekly, symbols, table);
      }
    }
  }

  /** When every symbol is priced on every resolved date, each week spends its whole credit and the cash never changes. */
  lemma {:induction false} SimpleRunFullyPriced(p: SimplePortfolio, schedule: seq<Date>, weekly: real, symbols: seq<Symbol>, table: PriceTable)
    requires table.Valid() && |symbols| > 0 && forall s :: s in symbols ==> s in p.book.assets
    ensures (forall d :: d in schedule && Resolve(table, d).Some? ==>
               DcaProperties.PricedCount(symbols, Resolve(table, d).value, table) == |symbols|) ==>
      SimpleRun(p, schedule, weekly, symbols, table).book.cash == p.book.cash
  {
    if schedule != [] {
      var prefix := schedule[..|schedule| - 1];
      var friday := schedule[|schedule| - 1];
      assert forall x :: x in prefix ==> x in schedule;
      SimpleRunFullyPriced(p, prefix, weekly, symbols, table);
      var before := SimpleRun(p, prefix, weekly, symbols, table);
      assert SimpleRun(p, schedule, weekly, symbols, table) == SimpleWeek(before, friday, weekly, symbols, table);
      if Resolve(table, friday).Some? {
        DcaProperties.InvestWeekSpending(before.book, Resolve(table, friday).value, weekly, symbols, table);
      }
    }
  }

  // ---------------------------------------------------------------------------
  // The metrics

  /**
   * The metrics of a run from the reset portfolio: an error exactly when no
   * Friday resolved; otherwise `total_weeks` and `total_invested` count every
   * scheduled Friday, so `total_invested` exceeds what was credited by the sum
   * of the skipped weeks, and the cash left (for a non-negative sum) lies
   * between zero and what was credited.
   */
  lemma SimpleMetricsFacts(start: Date, end: Date, schedule: seq<Date>, weekly: real, symbols: seq<Symbol>, table: PriceTable)
    requires table.Valid() && |symbols| > 0
    ensures var p := SimpleRun(SimplePortfolio(EmptyBook(symbols), []), schedule, weekly, symbols, table);
      var m := SimpleMetricsOf(p, start, end, schedule, weekly);
      && (m.Err? <==> Resolved(schedule, table) == 0)
      && (m.Ok? ==>
           && m.value.totalWeeks == |schedule|
           && m.value.totalInvested == Repeated(weekly, Resolved(schedule, table)) + Repeated(weekly, |schedule| - Resolved(schedule, table))
           && m.value.finalValue == p.history[|p.history| - 1].totalValue
           && (weekly >= 0.0 ==> 0.0 <= p.book.cash <= Repeated(weekly, Resolved(schedule, table))))
  {
    var p0 := SimplePortfolio(EmptyBook(symbols), []);
    SimpleRunHistory(p0, schedule, weekly, symbols, table);
    var p := SimpleRun(p0, schedule, weekly, symbols, table);
    if p.history != [] {
      SimpleMetricsInvested(p, start, end, schedule, weekly);
      DcaProperties.RepeatedSplit(weekly, Resolved(schedule, table), |schedule| - Resolved(schedule, table));
      if weekly >= 0.0 {
        SimpleRunCash(p0, schedule, weekly, symbols, table);
      }
    }
  }

  lemma SimpleMetricsInvested(p: SimplePortfolio, start: Date, end: Date, schedule: seq<Date>, weekly: real)
    requires p.history != []
    ensures SimpleMetricsOf(p, start, end, schedule, weekly).Ok?
    ensures SimpleMetricsOf(p, start, end, schedule, weekly).value.totalInvested == Repeated(weekly, |schedule|)
    ensures SimpleMetricsOf(p, start, end, schedule, weekly).value.totalWeeks == |schedule|
  {
    RepeatedIsProduct(weekly, |schedule|);
  }

  /**
   * A concrete run in which the first Friday precedes every trading date: it is
   * skipped without a credit, yet `total_invested` counts it.
   */
  lemma SkippedFridayIsCounted()
    ensures var table := PriceTable(["SPY"], [10], map[10 := map["SPY" := 100.0]]);
      var p := SimpleRun(SimplePortfolio(EmptyBook(["SPY"]), []), [3, 10], 500.0, ["SPY"], table);
      var m := SimpleMetricsOf(p, 0, 10, [3, 10], 500.0);
      && |p.history| == 1 && p.book.cash == 0.0
      && m.Ok? && m.value.totalInvested == 1000.0 && m.value.finalValue == 500.0
      && m.value.totalReturn == Some(-50.0)
  {
    var table := PriceTable(["SPY"], [10], map[10 := map["SPY" := 100.0]]);
    assert table.Valid();
    var p0 := SimplePortfolio(EmptyBook(["SPY"]), []);
    assert p0.book.assets == map["SPY" := 0.0];
    assert LastAtOrBefore([10], 3) == None;
    assert Resolve(table, 3) == None;
    assert [3, 10][..1] == [3];
    assert [3][..0] == [];
    var p1 := SimpleRun(p0, [3], 500.0, ["SPY"], table);
    assert p1 == SimpleWeek(p0, 3, 500.0, ["SPY"], table);
    assert p1 == p0;
    assert Resolve(table, 10) == Some(10);
    var b := InvestWeek(p0.book, 10, 500.0, ["SPY"], table);
    assert ["SPY"][..0] == [];
    assert BuyEach(p0.book.(cash := 500.0), ["SPY"], 500.0, 10, table)
        == BuyShares(p0.book.(cash := 500.0), "SPY", 500.0, 10, table);
    assert PerSymbol(500.0, 1) == 500.0;
    assert SharesFor(500.0, 100.0) == 5.0;
    assert b == Book(0.0, map["SPY" := 5.0]);
    assert Dedup(["SPY"]) == ["SPY"];
    assert AssetsValue(["SPY"], b.assets, 10, table) == HoldingValue(b.assets, "SPY", 10, table);
    assert HoldingValue(b.assets, "SPY", 10, table) == 500.0;
    var p := SimpleRun(p0, [3, 10], 500.0, ["SPY"], table);
    assert p == SimpleWeek(p1, 10, 500.0, ["SPY"], table);
    assert p.history == [SimpleSnapshot(10, 0.0, 500.0, 500.0)];
  }
}
