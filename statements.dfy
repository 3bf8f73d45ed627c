/**
 * The rows the `set_*` methods add to a cleaned statement (asset.py lines
 * 76-101, 117-146 and 160-173): the balance sheet's net-asset rows and
 * current ratio, the market-cap rows, the scaling, and the stock-price rows
 * that are added after it.
 */
module Statements {
  import opened Outcomes
  import opened Cells
  import opened Tables
  import opened Prices

  const TotalAssets: string := "totalAssets"
  const TotalCurrentAssets: string := "totalCurrentAssets"
  const TotalLiabilities: string := "totalLiabilities"
  const TotalCurrentLiabilities: string := "totalCurrentLiabilities"

  /** The balance-sheet rows the derived rows read, in the order they are looked up. */
  const BalanceInputs: seq<string> :=
    [TotalAssets, TotalCurrentAssets, TotalLiabilities, TotalCurrentLiabilities]

  const NetTotalAssets: string := "net_total_assets"
  const NetCurrentAssets: string := "net_current_assets"
  const CurrentRatio: string := "current_ratio"
  const DerivedRows: set<string> := {NetTotalAssets, NetCurrentAssets, CurrentRatio}

  const MarketCapHigh: string := "marketcap_high"
  const MarketCapLow: string := "marketcap_low"
  const MarketCapAverage: string := "marketcap_average"
  const MarketCapRows: set<string> := {MarketCapHigh, MarketCapLow, MarketCapAverage}

  const StockHigh: string := "stock_high"
  const StockLow: string := "stock_low"
  const StockAverage: string := "stock_average"
  const StockRows: set<string> := {StockHigh, StockLow, StockAverage}

  /** `(a - b) * 100` */
  function NetOf(a: Cell, b: Cell): (c: Cell)
    ensures a.Num? && b.Num? ==> c == Num((a.v - b.v) * 100.0)
    ensures a.Missing? || b.Missing? ==> c.Missing?
  {
    Mul(Sub(a, b), Num(100.0))
  }

  /** `(a / b).fillna(0)`: never missing, but a non-zero value over zero stays infinite. */
  function QuotientOrZero(a: Cell, b: Cell): (c: Cell)
    ensures !c.Missing?
    ensures a.Num? && b.Num? && b.v != 0.0 ==> c == Num(a.v / b.v)
    ensures a.Num? && b.Num? && b.v == 0.0 ==> (c.Inf? <==> a.v != 0.0)
    ensures a.Missing? || b.Missing? ==> c == Num(0.0)
  {
    FillNa(Div(a, b), 0.0)
  }

  /** The added rows have distinct names: their lengths differ. */
  lemma DerivedNamesDistinct()
    ensures NetTotalAssets != NetCurrentAssets && NetTotalAssets != CurrentRatio
    ensures NetCurrentAssets != CurrentRatio
  {
    assert |NetTotalAssets| == 16 && |NetCurrentAssets| == 18 && |CurrentRatio| == 13;
  }

  lemma MarketCapNamesDistinct()
    ensures MarketCapHigh != MarketCapLow && MarketCapHigh != MarketCapAverage
    ensures MarketCapLow != MarketCapAverage
  {
    assert |MarketCapHigh| == 14 && |MarketCapLow| == 13 && |MarketCapAverage| == 17;
  }

  lemma StockNamesDistinct()
    ensures StockHigh != StockLow && StockHigh != StockAverage && StockLow != StockAverage
  {
    assert |StockHigh| == 10 && |StockLow| == 9 && |StockAverage| == 13;
  }

  /** No market-cap row is a stock row: their first letters differ. */
  lemma CapsAreNotStocks(l: string)
    requires l in MarketCapRows
    ensures l !in StockRows
  {
    assert l[0] == 'm';
  }

  /**
   * Lines 124-132 once the four input rows are read: the net total assets,
   * the net current assets and the current ratio are added or replaced, and
   * every other row is kept.
   */
  function AddDerivedRows(t: Table, totalAssets: Row, currentAssets: Row, totalLiabilities: Row,
                          currentLiabilities: Row): (r: Table)
    requires Valid(t)
    requires Covers(t.periods, totalAssets) && Covers(t.periods, currentAssets)
    requires Covers(t.periods, totalLiabilities) && Covers(t.periods, currentLiabilities)
    ensures Valid(r) && r.periods == t.periods && t.index <= r.index
    ensures r.rows == t.rows
      [NetTotalAssets := Combine(t.periods, totalAssets, totalLiabilities, NetOf)]
      [NetCurrentAssets := Combine(t.periods, currentAssets, currentLiabilities, NetOf)]
      [CurrentRatio := Combine(t.periods, currentAssets, currentLiabilities, QuotientOrZero)]
  {
    DerivedNamesDistinct();
    var net := Combine(t.periods, totalAssets, totalLiabilities, NetOf);
    var netCurrent := Combine(t.periods, currentAssets, currentLiabilities, NetOf);
    var ratio := Combine(t.periods, currentAssets, currentLiabilities, QuotientOrZero);
    SetRows(t, NetTotalAssets, net, NetCurrentAssets, netCurrent, CurrentRatio, ratio)
  }

  /**
   * Lines 118-132: the derived rows, or the KeyError of the first input row
   * the balance sheet lacks, in the order the rows are read.
   */
  function WithDerivedRows(t: Table): (r: Result<Table, Error>)
    requires Valid(t)
    ensures r.Success? <==> forall n :: n in BalanceInputs ==> n in t.rows
    ensures r.Failure? ==>
      FirstAbsent(t, BalanceInputs) < |BalanceInputs|
      && r.error == MissingRow(BalanceInputs[FirstAbsent(t, BalanceInputs)])
    ensures r.Success? ==>
      && TotalAssets in t.rows && TotalCurrentAssets in t.rows
      && TotalLiabilities in t.rows && TotalCurrentLiabilities in t.rows
      && r.value == AddDerivedRows(t, t.rows[TotalAssets], t.rows[TotalCurrentAssets],
                                   t.rows[TotalLiabilities], t.rows[TotalCurrentLiabilities])
  {
    var rows :- GetRows(t, BalanceInputs);
    Success(AddDerivedRows(t, rows[0], rows[1], rows[2], rows[3]))
  }

  /**
   * Lines 80-84, 136-138 and 163-165: the market-cap dicts become rows
   * realigned on the periods; every other row is kept.
   */
  function WithMarketCaps(t: Table, pd: PriceData): (r: Table)
    requires Valid(t)
    ensures Valid(r) && r.periods == t.periods && t.index <= r.index
    ensures r.rows == t.rows
      [MarketCapHigh := Reindexed(t.periods, pd.capHigh)]
      [MarketCapLow := Reindexed(t.periods, pd.capLow)]
      [MarketCapAverage := Reindexed(t.periods, pd.capAverage)]
  {
    MarketCapNamesDistinct();
    var high := Reindexed(t.periods, pd.capHigh);
    var low := Reindexed(t.periods, pd.capLow);
    var average := Reindexed(t.periods, pd.capAverage);
    SetRows(t, MarketCapHigh, high, MarketCapLow, low, MarketCapAverage, average)
  }

  /** Lines 89-91, 144-146 and 171-173: the price dicts become rows; every other row is kept. */
  function WithStockPrices(t: Table, pd: PriceData): (r: Table)
    requires Valid(t)
    ensures Valid(r) && r.periods == t.periods && t.index <= r.index
    ensures r.rows == t.rows
      [StockHigh := Reindexed(t.periods, pd.priceHigh)]
      [StockLow := Reindexed(t.periods, pd.priceLow)]
      [StockAverage := Reindexed(t.periods, pd.priceAverage)]
  {
    StockNamesDistinct();
    var high := Reindexed(t.periods, pd.priceHigh);
    var low := Reindexed(t.periods, pd.priceLow);
    var average := Reindexed(t.periods, pd.priceAverage);
    SetRows(t, StockHigh, high, StockLow, low, StockAverage, average)
  }

  /** The derived rows' cells at one period: what lines 124-132 compute from the four inputs. */
  lemma AddedDerivedCells(t: Table, totalAssets: Row, currentAssets: Row, totalLiabilities: Row,
                          currentLiabilities: Row, p: int)
    requires Valid(t) && p in t.periods
    requires Covers(t.periods, totalAssets) && Covers(t.periods, currentAssets)
    requires Covers(t.periods, totalLiabilities) && Covers(t.periods, currentLiabilities)
    ensures var d := AddDerivedRows(t, totalAssets, currentAssets, totalLiabilities, currentLiabilities);
      && NetTotalAssets in d.rows && NetCurrentAssets in d.rows && CurrentRatio in d.rows
      && d.rows[NetTotalAssets][p] == NetOf(totalAssets[p], totalLiabilities[p])
      && d.rows[NetCurrentAssets][p] == NetOf(currentAssets[p], currentLiabilities[p])
      && d.rows[CurrentRatio][p] == QuotientOrZero(currentAssets[p], currentLiabilities[p])
  {
    var d := AddDerivedRows(t, totalAssets, currentAssets, totalLiabilities, currentLiabilities);
    DerivedNamesDistinct();
    CombineAt(t.periods, totalAssets, totalLiabilities, NetOf, p);
    CombineAt(t.periods, currentAssets, currentLiabilities, NetOf, p);
    CombineAt(t.periods, currentAssets, currentLiabilities, QuotientOrZero, p);
  }

  /** Adding the derived rows keeps every other row. */
  lemma DerivedKeeps(t: Table, l: string)
    requires Valid(t) && l in t.rows && l !in DerivedRows
    requires forall n :: n in BalanceInputs ==> n in t.rows
    ensures WithDerivedRows(t).Success?
    ensures l in WithDerivedRows(t).value.rows && WithDerivedRows(t).value.rows[l] == t.rows[l]
  {
    var d := WithDerivedRows(t).value;
    assert l != NetTotalAssets && l != NetCurrentAssets && l != CurrentRatio;
    assert d.rows == t.rows
      [NetTotalAssets := Combine(t.periods, t.rows[TotalAssets], t.rows[TotalLiabilities], NetOf)]
      [NetCurrentAssets := Combine(t.periods, t.rows[TotalCurrentAssets], t.rows[TotalCurrentLiabilities], NetOf)]
      [CurrentRatio := Combine(t.periods, t.rows[TotalCurrentAssets], t.rows[TotalCurrentLiabilities], QuotientOrZero)];
  }

  /** The market-cap rows hold the aligned dicts' entries, NaN where a dict has none. */
  lemma MarketCapCells(t: Table, pd: PriceData, p: int)
    requires Valid(t) && p in t.periods
    ensures var m := WithMarketCaps(t, pd);
      && MarketCapHigh in m.rows && MarketCapLow in m.rows && MarketCapAverage in m.rows
      && m.rows[MarketCapHigh][p] == At(pd.capHigh, p)
      && m.rows[MarketCapLow][p] == At(pd.capLow, p)
      && m.rows[MarketCapAverage][p] == At(pd.capAverage, p)
  {
    MarketCapNamesDistinct();
  }

  /** Adding the market-cap rows keeps every other row. */
  lemma MarketCapKeeps(t: Table, pd: PriceData, l: string)
    requires Valid(t) && l in t.rows && l !in MarketCapRows
    ensures l in WithMarketCaps(t, pd).rows && WithMarketCaps(t, pd).rows[l] == t.rows[l]
  {
  }

  /** The stock rows hold the aligned prices. */
  lemma StockPriceCells(t: Table, pd: PriceData, p: int)
    requires Valid(t) && p in t.periods
    ensures var m := WithStockPrices(t, pd);
      && StockHigh in m.rows && StockLow in m.rows && StockAverage in m.rows
      && m.rows[StockHigh][p] == At(pd.priceHigh, p)
      && m.rows[StockLow][p] == At(pd.priceLow, p)
      && m.rows[StockAverage][p] == At(pd.priceAverage, p)
  {
    StockNamesDistinct();
  }

  /** Adding the stock rows keeps every other row. */
  lemma StockPriceKeeps(t: Table, pd: PriceData, l: string)
    requires Valid(t) && l in t.rows && l !in StockRows
    ensures l in WithStockPrices(t, pd).rows && WithStockPrices(t, pd).rows[l] == t.rows[l]
  {
  }
}
