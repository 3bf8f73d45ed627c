/**
 * What the three `set_*` methods do to a cleaned statement (asset.py lines
 * 76-101, 133-146 and 160-173), and the order of their steps: which rows
 * are divided by the scaler and which are not.
 */
module Enrichment {
  import opened Outcomes
  import opened Cells
  import opened Tables
  import opened Prices
  import opened Statements

  /**
   * Each period of the derived rows: (total assets - total liabilities) * 100,
   * (current assets - current liabilities) * 100, and current assets over
   * current liabilities with NaN replaced by 0.
   */
  lemma DerivedCells(t: Table, p: int)
    requires Valid(t) && p in t.periods
    requires forall n :: n in BalanceInputs ==> n in t.rows
    ensures WithDerivedRows(t).Success?
    ensures var d := WithDerivedRows(t).value;
      && NetTotalAssets in d.rows && NetCurrentAssets in d.rows && CurrentRatio in d.rows
      && d.rows[NetTotalAssets][p] == NetOf(t.rows[TotalAssets][p], t.rows[TotalLiabilities][p])
      && d.rows[NetCurrentAssets][p] ==
           NetOf(t.rows[TotalCurrentAssets][p], t.rows[TotalCurrentLiabilities][p])
      && d.rows[CurrentRatio][p] ==
           QuotientOrZero(t.rows[TotalCurrentAssets][p], t.rows[TotalCurrentLiabilities][p])
  {
    AddedDerivedCells(t, t.rows[TotalAssets], t.rows[TotalCurrentAssets], t.rows[TotalLiabilities],
                      t.rows[TotalCurrentLiabilities], p);
  }

  /** What a `set_*` call ends with: its status and the table it leaves in the field. */
  datatype Outcome = Outcome(status: Status, table: Table)

  /**
   * Lines 78-91 and 161-173 on a cleaned income statement or cash flow: the
   * market-cap rows are added, every row is divided by the scaler, then the
   * stock rows are added. A table without period columns refuses the first
   * new row (ValueError) and is left as it was; otherwise an unknown unit
   * raises once the market-cap rows are in place, and the table keeps them.
   */
  function EnrichedStatement(t: Table, pd: PriceData, scaler: Option<nat>): (r: Outcome)
    requires Valid(t)
    ensures Valid(r.table) && r.table.periods == t.periods && t.index <= r.table.index
    ensures r.status.Raised? <==> t.periods == [] || scaler.None?
    ensures t.periods == [] ==> r == Outcome(Raised(NoPeriodColumns), t)
    ensures t.periods != [] && scaler.None? ==>
      r.status.error == UnknownScaleUnit && r.table == WithMarketCaps(t, pd)
  {
    if t.periods == [] then Outcome(Raised(NoPeriodColumns), t)
    else
      var withCaps := WithMarketCaps(t, pd);
      match scaler
      case None => Outcome(Raised(UnknownScaleUnit), withCaps)
      case Some(s) =>
        ScaledValid(withCaps, s as real);
        Outcome(Done, WithStockPrices(Scaled(withCaps, s as real), pd))
  }

  /**
   * A successful enrichment is the market caps, the scaling and the stock
   * rows, in that order; without period columns the table stays as it was.
   */
  lemma StatementShape(t: Table, pd: PriceData, s: nat)
    requires Valid(t)
    ensures Valid(Scaled(WithMarketCaps(t, pd), s as real))
    ensures t.periods != [] ==>
      EnrichedStatement(t, pd, Some(s)).table == WithStockPrices(Scaled(WithMarketCaps(t, pd), s as real), pd)
    ensures t.periods == [] ==> EnrichedStatement(t, pd, Some(s)).table == t
  {
    ScaledValid(WithMarketCaps(t, pd), s as real);
  }

  /**
   * The scaling of an income statement or cash flow: multiplying any cleaned
   * cell back by the scaler gives the figure it was before.
   */
  lemma EnrichedScaling(t: Table, pd: PriceData, s: nat, l: string, p: int)
    requires Valid(t) && s > 0 && p in t.periods
    requires l in t.rows && l !in MarketCapRows && l !in StockRows
    ensures var r := EnrichedStatement(t, pd, Some(s)).table;
      l in r.rows && p in r.rows[l] && Mul(r.rows[l][p], Num(s as real)) == t.rows[l][p]
  {
    var m := WithMarketCaps(t, pd);
    StatementShape(t, pd, s);
    MarketCapKeeps(t, pd, l);
    ScaledRoundTrip(m, s as real, l, p);
    StockPriceKeeps(Scaled(m, s as real), pd, l);
  }

  /**
   * The market caps are scaled with the figures: multiplying them back by the
   * scaler gives the products of share count and price the aligner computed.
   */
  lemma EnrichedMarketCaps(t: Table, pd: PriceData, s: nat, p: int)
    requires Valid(t) && s > 0 && p in t.periods
    ensures var r := EnrichedStatement(t, pd, Some(s)).table;
      && MarketCapHigh in r.rows && MarketCapLow in r.rows && MarketCapAverage in r.rows
      && p in r.rows[MarketCapHigh] && p in r.rows[MarketCapLow] && p in r.rows[MarketCapAverage]
      && Mul(r.rows[MarketCapHigh][p], Num(s as real)) == At(pd.capHigh, p)
      && Mul(r.rows[MarketCapLow][p], Num(s as real)) == At(pd.capLow, p)
      && Mul(r.rows[MarketCapAverage][p], Num(s as real)) == At(pd.capAverage, p)
  {
    var m := WithMarketCaps(t, pd);
    var scaled := Scaled(m, s as real);
    StatementShape(t, pd, s);
    MarketCapCells(t, pd, p);
    ScaledRoundTrip(m, s as real, MarketCapHigh, p);
    ScaledRoundTrip(m, s as real, MarketCapLow, p);
    ScaledRoundTrip(m, s as real, MarketCapAverage, p);
    CapsAreNotStocks(MarketCapHigh);
    CapsAreNotStocks(MarketCapLow);
    CapsAreNotStocks(MarketCapAverage);
    StockPriceKeeps(scaled, pd, MarketCapHigh);
    StockPriceKeeps(scaled, pd, MarketCapLow);
    StockPriceKeeps(scaled, pd, MarketCapAverage);
  }

  /**
   * The high market cap of a period after the first, scaled back: the share
   * count `bs` holds for it times the highest price since the period before.
   */
  lemma EnrichedCapAt(t: Table, prices: seq<PriceRow>, bs: Table, s: nat, k: nat)
    requires Valid(t) && s > 0 && 0 < k < |t.periods|
    ensures var r := EnrichedStatement(t, AlignedPrices(t.periods, prices, bs), Some(s)).table;
      var p := t.periods[k];
      && MarketCapHigh in r.rows && p in r.rows[MarketCapHigh]
      && Mul(r.rows[MarketCapHigh][p], Num(s as real)) ==
           CapOf(SharesAt(bs, p), SliceHigh(PeriodWindow(t.periods, k, prices)))
  {
    var pd := AlignedPrices(t.periods, prices, bs);
    var p := t.periods[k];
    EnrichedMarketCaps(t, pd, s, p);
    AlignedPricesAt(t.periods, prices, bs, k);
    assert Lookup(pd.capHigh, p) == Some(CapOf(SharesAt(bs, p), SliceHigh(PeriodWindow(t.periods, k, prices))));
  }

  /** The stock rows are added after the scaling and hold the prices undivided. */
  lemma EnrichedStockPrices(t: Table, pd: PriceData, s: nat, p: int)
    requires Valid(t) && s > 0 && p in t.periods
    ensures var r := EnrichedStatement(t, pd, Some(s)).table;
      && StockHigh in r.rows && StockLow in r.rows && StockAverage in r.rows
      && p in r.rows[StockHigh] && p in r.rows[StockLow] && p in r.rows[StockAverage]
      && r.rows[StockHigh][p] == At(pd.priceHigh, p)
      && r.rows[StockLow][p] == At(pd.priceLow, p)
      && r.rows[StockAverage][p] == At(pd.priceAverage, p)
  {
    StatementShape(t, pd, s);
    ScaledValid(WithMarketCaps(t, pd), s as real);
    StockPriceCells(Scaled(WithMarketCaps(t, pd), s as real), pd, p);
  }

  /**
   * Lines 78-91 and 161-173 step by step on the statement being built: the
   * market-cap rows, the division of every row, then the stock rows.
   */
  method Enrich(t: Table, pd: PriceData, scaler: Option<nat>) returns (o: Outcome)
    requires Valid(t)
    ensures o == EnrichedStatement(t, pd, scaler)
  {
    if t.periods == [] {
      return Outcome(Raised(NoPeriodColumns), t);
    }
    var table := WithMarketCaps(t, pd);
    if scaler.None? {
      return Outcome(Raised(UnknownScaleUnit), table);
    }
    table := DivideEachRow(table, scaler.value as real);
    table := WithStockPrices(table, pd);
    return Outcome(Done, table);
  }

  /** What `set_balance_sheet` leaves: its status, the balance sheet and the income statement. */
  datatype BalanceOutcome = BalanceOutcome(status: Status, balance: Table, income: Table)

  /**
   * Lines 117-146 on a cleaned balance sheet: the derived rows, the market
   * caps from the balance sheet's own share counts, then the scaling loop,
   * which walks the income statement and leaves the balance sheet as it is,
   * and the stock rows. A sheet without period columns has its four rows
   * read, then refuses the first new row (ValueError) and stays as it was.
   */
  function EnrichedBalanceSheet(t: Table, income: Table, prices: seq<PriceRow>, scaler: Option<nat>)
    : (r: BalanceOutcome)
    requires Valid(t) && Valid(income)
    ensures Valid(r.balance) && Valid(r.income) && r.balance.periods == t.periods
    ensures r.status.Raised? <==>
      scaler.None? || t.periods == [] || exists n :: n in BalanceInputs && n !in t.rows
    ensures r.status.Raised? ==> r.income == income
    ensures (forall n :: n in BalanceInputs ==> n in t.rows) && t.periods == [] ==>
      r == BalanceOutcome(Raised(NoPeriodColumns), t, income)
  {
    match WithDerivedRows(t)
    case Failure(e) => BalanceOutcome(Raised(e), t, income)
    case Success(d) =>
      if t.periods == [] then BalanceOutcome(Raised(NoPeriodColumns), t, income)
      else
      var pd := AlignedPrices(d.periods, prices, d);
      var withCaps := WithMarketCaps(d, pd);
      match scaler
      case None => BalanceOutcome(Raised(UnknownScaleUnit), withCaps, income)
      case Some(s) =>
        ScaledValid(income, s as real);
        BalanceOutcome(Done, WithStockPrices(withCaps, pd), Scaled(income, s as real))
  }

  /** A successful `set_balance_sheet` on a sheet with the four input rows and some periods. */
  lemma BalanceSheetShape(t: Table, income: Table, prices: seq<PriceRow>, s: nat)
    requires Valid(t) && Valid(income)
    requires forall n :: n in BalanceInputs ==> n in t.rows
    ensures WithDerivedRows(t).Success?
    ensures var d := WithDerivedRows(t).value;
      var pd := AlignedPrices(d.periods, prices, d);
      t.periods != [] ==>
        EnrichedBalanceSheet(t, income, prices, Some(s)) ==
          BalanceOutcome(Done, WithStockPrices(WithMarketCaps(d, pd), pd), Scaled(income, s as real))
  {
  }

  /**
   * `set_balance_sheet` keeps its own figures undivided: every cleaned
   * balance-sheet cell that is not overwritten survives as it was.
   */
  lemma BalanceSheetUnscaled(t: Table, income: Table, prices: seq<PriceRow>, s: nat, l: string, p: int)
    requires Valid(t) && Valid(income)
    requires forall n :: n in BalanceInputs ==> n in t.rows
    requires l in t.rows && l !in DerivedRows && l !in MarketCapRows && l !in StockRows && p in t.periods
    ensures var r := EnrichedBalanceSheet(t, income, prices, Some(s));
      r.status == Done && l in r.balance.rows && p in r.balance.rows[l] && r.balance.rows[l][p] == t.rows[l][p]
  {
    BalanceSheetShape(t, income, prices, s);
    DerivedKeeps(t, l);
    var d := WithDerivedRows(t).value;
    var pd := AlignedPrices(d.periods, prices, d);
    MarketCapKeeps(d, pd, l);
    StockPriceKeeps(WithMarketCaps(d, pd), pd, l);
  }

  /**
   * `set_balance_sheet` divides the income statement instead: multiplying
   * any of its cells back by the scaler gives what it held before. A sheet
   * without period columns raises before the loop, which then divides nothing.
   */
  lemma BalanceSheetScalesIncome(t: Table, income: Table, prices: seq<PriceRow>, s: nat, l: string, p: int)
    requires Valid(t) && Valid(income) && s > 0
    requires forall n :: n in BalanceInputs ==> n in t.rows
    requires l in income.rows && p in income.rows[l]
    ensures var r := EnrichedBalanceSheet(t, income, prices, Some(s));
      t.periods != [] ==>
        && r.status == Done && l in r.income.rows && p in r.income.rows[l]
        && Mul(r.income.rows[l][p], Num(s as real)) == income.rows[l][p]
    ensures var r := EnrichedBalanceSheet(t, income, prices, Some(s));
      t.periods == [] ==> r.status == Raised(NoPeriodColumns) && r.income == income
  {
    BalanceSheetShape(t, income, prices, s);
    ScaledRoundTrip(income, s as real, l, p);
  }

  /**
   * The first period of an enriched statement: its market-cap rows hold NaN,
   * since the aligner gives the first label no market-cap entry (scaling
   * keeps NaN), and its stock rows hold 0.
   */
  lemma FirstPeriodMarketCaps(t: Table, prices: seq<PriceRow>, bs: Table, scaler: Option<nat>)
    requires Valid(t) && t.periods != []
    ensures var r := EnrichedStatement(t, AlignedPrices(t.periods, prices, bs), scaler).table;
      var p := t.periods[0];
      && MarketCapHigh in r.rows && MarketCapLow in r.rows && MarketCapAverage in r.rows
      && p in r.rows[MarketCapHigh] && p in r.rows[MarketCapLow] && p in r.rows[MarketCapAverage]
      && r.rows[MarketCapHigh][p].Missing? && r.rows[MarketCapLow][p].Missing?
      && r.rows[MarketCapAverage][p].Missing?
  {
    var pd := AlignedPrices(t.periods, prices, bs);
    var p := t.periods[0];
    AlignedPricesAt(t.periods, prices, bs, 0);
    assert p !in pd.capHigh && p !in pd.capLow && p !in pd.capAverage;
    var m := WithMarketCaps(t, pd);
    MarketCapCells(t, pd, p);
    if scaler.Some? {
      var scaled := Scaled(m, scaler.value as real);
      StatementShape(t, pd, scaler.value);
      CapsAreNotStocks(MarketCapHigh);
      CapsAreNotStocks(MarketCapLow);
      CapsAreNotStocks(MarketCapAverage);
      StockPriceKeeps(scaled, pd, MarketCapHigh);
      StockPriceKeeps(scaled, pd, MarketCapLow);
      StockPriceKeeps(scaled, pd, MarketCapAverage);
    }
  }

  lemma FirstPeriodStockPrices(t: Table, prices: seq<PriceRow>, bs: Table, s: nat)
    requires Valid(t) && t.periods != []
    ensures var r := EnrichedStatement(t, AlignedPrices(t.periods, prices, bs), Some(s)).table;
      var p := t.periods[0];
      && StockHigh in r.rows && StockLow in r.rows && StockAverage in r.rows
      && p in r.rows[StockHigh] && p in r.rows[StockLow] && p in r.rows[StockAverage]
      && r.rows[StockHigh][p] == Num(0.0) && r.rows[StockLow][p] == Num(0.0)
      && r.rows[StockAverage][p] == Num(0.0)
  {
    var pd := AlignedPrices(t.periods, prices, bs);
    var p := t.periods[0];
    AlignedPricesAt(t.periods, prices, bs, 0);
    assert p in pd.priceHigh && p in pd.priceLow && p in pd.priceAverage;
    StatementShape(t, pd, s);
    StockPriceCells(Scaled(WithMarketCaps(t, pd), s as real), pd, p);
  }

  /**
   * The first period of the enriched balance sheet has no average market cap
   * (NaN): the aligner gives the first label no market-cap entry.
   */
  lemma BalanceSheetFirstPeriod(t: Table, income: Table, prices: seq<PriceRow>, s: nat)
    requires Valid(t) && Valid(income) && t.periods != []
    requires forall n :: n in BalanceInputs ==> n in t.rows
    ensures var r := EnrichedBalanceSheet(t, income, prices, Some(s)).balance;
      && MarketCapAverage in r.rows && t.periods[0] in r.rows[MarketCapAverage]
      && r.rows[MarketCapAverage][t.periods[0]].Missing?
  {
    BalanceSheetShape(t, income, prices, s);
    var d := WithDerivedRows(t).value;
    var pd := AlignedPrices(d.periods, prices, d);
    var p := d.periods[0];
    AlignedPricesAt(d.periods, prices, d, 0);
    assert p !in pd.capAverage;
    MarketCapCells(d, pd, p);
    CapsAreNotStocks(MarketCapAverage);
    StockPriceKeeps(WithMarketCaps(d, pd), pd, MarketCapAverage);
  }

  /** Total assets 500, liabilities 300, current assets 200 and current liabilities 100. */
  lemma DerivedRowsExample(t: Table, p: int)
    requires Valid(t) && p in t.periods
    requires forall n :: n in BalanceInputs ==> n in t.rows
    requires t.rows[TotalAssets][p] == Num(500.0) && t.rows[TotalLiabilities][p] == Num(300.0)
    requires t.rows[TotalCurrentAssets][p] == Num(200.0) && t.rows[TotalCurrentLiabilities][p] == Num(100.0)
    ensures var d := WithDerivedRows(t).value;
      && d.rows[NetTotalAssets][p] == Num(20000.0)
      && d.rows[NetCurrentAssets][p] == Num(10000.0)
      && d.rows[CurrentRatio][p] == Num(2.0)
  {
    DerivedCells(t, p);
  }
}
