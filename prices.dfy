/** The price frame the simulators read: one row of close prices per trading date. */
module Prices {

  type Symbol = string

  /** Calendar days, numbered consecutively; `d - 1` is the day before `d`. */
  type Date = int

  /**
   * A close-price frame. `columns` are the loaded symbols, `index` the trading
   * dates in row order and `close[d]` the prices of row `d`. A symbol missing
   * from a row stands for a NaN cell.
   */
  datatype PriceTable = PriceTable(columns: seq<Symbol>, index: seq<Date>, close: map<Date, map<Symbol, real>>)
  {
    /** Dates are unique, every row is in the index, cells belong to a column and prices are positive. */
    ghost predicate Valid() {
      && (forall i, j :: 0 <= i < j < |index| ==> index[i] != index[j])
      && (forall i, j :: 0 <= i < j < |columns| ==> columns[i] != columns[j])
      && (forall d :: d in close <==> d in index)
      && (forall d, s :: d in close && s in close[d] ==> s in columns)
      && (forall d, s :: d in close && s in close[d] ==> close[d][s] > 0.0)
    }

    /** `date in price_data.index` */
    predicate HasDate(d: Date) {
      d in close
    }

    /** The symbol is a column, the date is in the index and the cell is not NaN. */
    predicate Priced(d: Date, s: Symbol) {
      d in close && s in close[d]
    }

    function Price(d: Date, s: Symbol): real
      requires Priced(d, s)
    {
      close[d][s]
    }

    /** A non-NaN cell belongs to a column. */
    lemma PricedInColumns(d: Date, s: Symbol)
      requires Valid() && Priced(d, s)
      ensures s in columns && Price(d, s) > 0.0
    {
    }

    /** `DataFrame.empty`: no rows or no columns. */
    predicate IsEmpty() {
      |columns| == 0 || |index| == 0
    }
  }

  /** Sum of a sequence of reals, peeled from the back so that loop prefixes unfold directly. */
  function Sum(s: seq<real>): real {
    if s == [] then 0.0 else Sum(s[..|s| - 1]) + s[|s| - 1]
  }

  /** `x` added up `n` times: a product by a count, kept linear for the solver. */
  function Repeated(x: real, n: nat): real {
    if n == 0 then 0.0 else Repeated(x, n - 1) + x
  }

  lemma {:induction false} RepeatedIsProduct(x: real, n: nat)
    ensures Repeated(x, n) == x * n as real
  {
    if n > 0 {
      RepeatedIsProduct(x, n - 1);
      assert x * (n - 1) as real + x == x * n as real;
    }
  }

  /** `r` is `s` with some entries left out and the others kept in their order. */
  ghost predicate Subsequence<T>(r: seq<T>, s: seq<T>)
    decreases |s|
  {
    if r == [] then true
    else if s == [] then false
    else if r[|r| - 1] == s[|s| - 1] then Subsequence(r[..|r| - 1], s[..|s| - 1])
    else Subsequence(r, s[..|s| - 1])
  }

  /**
   * The keys of `{symbol: 0 for symbol in symbols}`: first occurrences, in
   * order. Whatever comes before `r[j]` already occurs in `s` before any
   * occurrence of `r[j]`.
   */
  function Dedup(s: seq<Symbol>): (r: seq<Symbol>)
    ensures forall x :: x in r <==> x in s
    ensures forall i, j :: 0 <= i < j < |r| ==> r[i] != r[j]
    ensures forall i, j, k :: 0 <= i < j < |r| && 0 <= k < |s| && s[k] == r[j] ==> r[i] in s[..k]
  {
    if s == [] then []
    else
      var n := |s| - 1;
      var prefix := Dedup(s[..n]);
      assert forall x :: x in s <==> x in s[..n] || x == s[n];
      assert forall k :: 0 <= k < n ==> s[..n][k] == s[k] && s[..n][..k] == s[..k];
      if s[n] in prefix then prefix else prefix + [s[n]]
  }

  /** A product of two non-negative reals, kept out of larger proofs. */
  lemma NonNegativeProduct(x: real, y: real)
    requires x >= 0.0 && y >= 0.0
    ensures x * y >= 0.0
  {
  }

  /** `{symbol: 0 for symbol in symbols}` */
  function ZeroHoldings(symbols: seq<Symbol>): (m: map<Symbol, real>)
    ensures m.Keys == set s | s in symbols
    ensures forall s :: s in m ==> m[s] == 0.0
  {
    map s | s in symbols :: 0.0
  }
}
