/**
 * The `Asset` class (asset.py lines 8-389): the three statements it enriches,
 * the four metric tables it derives from them, and the order in which
 * `set_all_statements` fills them in.
 */
module Assets {
  import opened Outcomes
  import opened Cells
  import opened Tables
  import opened Scaler
  import opened Normaliser
  import opened Prices
  import opened Statements
  import opened Enrichment
  import opened Metrics

  /** The seven tables an `Asset` holds, as values. */
  datatype Books = Books(
    income: Table, balance: Table, cashFlow: Table,
    perShare: Table, margins: Table, operatingExpenses: Table, yieldTable: Table)

  ghost predicate BooksValid(b: Books) {
    && Tables.Valid(b.income) && Tables.Valid(b.balance) && Tables.Valid(b.cashFlow)
    && Tables.Valid(b.perShare) && Tables.Valid(b.margins)
    && Tables.Valid(b.operatingExpenses) && Tables.Valid(b.yieldTable)
  }

  /** The tables of a fresh `Asset`: seven empty DataFrames (lines 12-24). */
  const NoBooks: Books := Books(Empty, Empty, Empty, Empty, Empty, Empty, Empty)

  /** What a `set_*` call ends with: returned or raised, and the tables it leaves. */
  datatype Step = Step(status: Status, books: Books)

  /**
   * `set_balance_sheet(df)`: the cleaned and enriched balance sheet, and the
   * income statement divided by the scaler; nothing else changes.
   */
  function BalanceSheetStep(b: Books, raw: RawStatement, prices: seq<PriceRow>, inX: Token)
    : (r: Step)
    requires BooksValid(b) && WellFormed(raw)
    ensures BooksValid(r.books)
    ensures r.books.cashFlow == b.cashFlow && r.books.perShare == b.perShare && r.books.margins == b.margins
    ensures r.books.operatingExpenses == b.operatingExpenses && r.books.yieldTable == b.yieldTable
    ensures Normalise(raw).Failure? ==> r == Step(Raised(Normalise(raw).error), b)
    ensures r.status.Raised? ==> r.books.income == b.income
    ensures Normalise(raw).Success? ==>
      var t := Normalise(raw).value;
      (r.status == Done <==>
         t.periods != [] && GetScaler(inX).Some? && forall n :: n in BalanceInputs ==> n in t.rows)
  {
    match Normalise(raw)
    case Failure(e) => Step(Raised(e), b)
    case Success(t) =>
      var o := EnrichedBalanceSheet(t, b.income, prices, GetScaler(inX));
      Step(o.status, b.(balance := o.balance, income := o.income))
  }

  /**
   * Lines 135-146 of `set_balance_sheet` once the prices are aligned: the
   * market-cap rows, then (unless the unit is unknown) the income statement
   * divided by the scaler and the stock rows. A balance sheet without period
   * columns refuses the first new row (ValueError).
   */
  function MarketDataStep(b: Books, pd: PriceData, inX: Token): (r: Step)
    requires BooksValid(b)
    ensures BooksValid(r.books)
    ensures r.books == b.(balance := r.books.balance, income := r.books.income)
    ensures r.status == Done <==> b.balance.periods != [] && GetScaler(inX).Some?
    ensures b.balance.periods == [] ==> r == Step(Raised(NoPeriodColumns), b)
    ensures r.status.Raised? ==> r.books.income == b.income
  {
    if b.balance.periods == [] then Step(Raised(NoPeriodColumns), b) else
    var withCaps := WithMarketCaps(b.balance, pd);
    match GetScaler(inX)
    case None => Step(Raised(UnknownScaleUnit), b.(balance := withCaps))
    case Some(s) =>
      ScaledValid(b.income, s as real);
      Step(Done, b.(balance := WithStockPrices(withCaps, pd), income := Scaled(b.income, s as real)))
  }

  /**
   * `set_income_statement(df)`: the enriched income statement, its market
   * caps from the balance sheet held at the time; then line 101 raises
   * KeyError when that balance sheet has no share-count row.
   */
  function IncomeStatementStep(b: Books, raw: RawStatement, prices: seq<PriceRow>, inX: Token)
    : (r: Step)
    requires BooksValid(b) && WellFormed(raw)
    ensures BooksValid(r.books)
    ensures r.books == b.(income := r.books.income)
    ensures Normalise(raw).Failure? ==> r == Step(Raised(Normalise(raw).error), b)
    ensures Normalise(raw).Success? ==>
      (r.status == Done <==>
         Normalise(raw).value.periods != [] && GetScaler(inX).Some? && SharesOutstanding in b.balance.rows)
  {
    match Normalise(raw)
    case Failure(e) => Step(Raised(e), b)
    case Success(t) =>
      var o := EnrichedStatement(t, AlignedPrices(t.periods, prices, b.balance), GetScaler(inX));
      var status :=
        if o.status.Raised? then o.status
        else if SharesOutstanding in b.balance.rows then Done
        else Raised(MissingRow(SharesOutstanding));
      Step(status, b.(income := o.table))
  }

  /** `set_cash_flow(df)`: the enriched cash flow, its market caps from the balance sheet held. */
  function CashFlowStep(b: Books, raw: RawStatement, prices: seq<PriceRow>, inX: Token)
    : (r: Step)
    requires BooksValid(b) && WellFormed(raw)
    ensures BooksValid(r.books)
    ensures r.books == b.(cashFlow := r.books.cashFlow)
    ensures Normalise(raw).Failure? ==> r == Step(Raised(Normalise(raw).error), b)
    ensures Normalise(raw).Success? ==>
      (r.status == Done <==> Normalise(raw).value.periods != [] && GetScaler(inX).Some?)
  {
    match Normalise(raw)
    case Failure(e) => Step(Raised(e), b)
    case Success(t) =>
      var o := EnrichedStatement(t, AlignedPrices(t.periods, prices, b.balance), GetScaler(inX));
      Step(o.status, b.(cashFlow := o.table))
  }

  /**
   * The metric tables are still the empty frames of a fresh `Asset`. Each
   * metric setter assigns its columns into its table and then transposes it,
   * so only a first call builds the metric table; a second call assigns
   * period-keyed columns into the transposed table, which that model of a
   * table cannot hold.
   */
  predicate MetricsUnset(b: Books) {
    b.perShare == Empty && b.margins == Empty && b.operatingExpenses == Empty && b.yieldTable == Empty
  }

  /** A metric setter: the table it computes replaces its field, or it raises and nothing changes. */
  function MetricStep(b: Books, r: Result<Table, Error>, place: (Books, Table) -> Books): Step {
    match r
    case Failure(e) => Step(Raised(e), b)
    case Success(t) => Step(Done, place(b, t))
  }

  function PerShareStep(b: Books): (r: Step)
    requires BooksValid(b) && b.perShare == Empty
    ensures BooksValid(r.books)
    ensures r.books == b.(perShare := r.books.perShare)
    ensures r.status == Done <==> PerShare(b.balance, b.cashFlow).Success?
    ensures r.status == Done ==> r.books.perShare == PerShare(b.balance, b.cashFlow).value
    ensures r.status.Raised? ==> r.books == b && r.status.error == PerShare(b.balance, b.cashFlow).error
  {
    MetricStep(b, PerShare(b.balance, b.cashFlow), (b: Books, t: Table) => b.(perShare := t))
  }

  function MarginsStep(b: Books): (r: Step)
    requires BooksValid(b) && b.margins == Empty
    ensures BooksValid(r.books)
    ensures r.books == b.(margins := r.books.margins)
    ensures r.status == Done <==> Margins(b.income).Success?
    ensures r.status == Done ==> r.books.margins == Margins(b.income).value
    ensures r.status.Raised? ==> r.books == b && r.status.error == Margins(b.income).error
  {
    MetricStep(b, Margins(b.income), (b: Books, t: Table) => b.(margins := t))
  }

  function OperatingExpenseStep(b: Books): (r: Step)
    requires BooksValid(b) && b.operatingExpenses == Empty
    ensures BooksValid(r.books)
    ensures r.books == b.(operatingExpenses := r.books.operatingExpenses)
    ensures r.status == Done <==> OperatingExpenseBreakdown(b.income).Success?
    ensures r.status == Done ==> r.books.operatingExpenses == OperatingExpenseBreakdown(b.income).value
    ensures r.status.Raised? ==> r.books == b && r.status.error == OperatingExpenseBreakdown(b.income).error
  {
    MetricStep(b, OperatingExpenseBreakdown(b.income), (b: Books, t: Table) => b.(operatingExpenses := t))
  }

  function YieldsStep(b: Books): (r: Step)
    requires BooksValid(b) && b.yieldTable == Empty
    ensures BooksValid(r.books)
    ensures r.books == b.(yieldTable := r.books.yieldTable)
    ensures r.status == Done <==> Yields(b.balance, b.cashFlow).Success?
    ensures r.status == Done ==> r.books.yieldTable == Yields(b.balance, b.cashFlow).value
    ensures r.status.Raised? ==> r.books == b && r.status.error == Yields(b.balance, b.cashFlow).error
  {
    MetricStep(b, Yields(b.balance, b.cashFlow), (b: Books, t: Table) => b.(yieldTable := t))
  }

  /**
   * `set_all_statements` (lines 178-193): balance sheet, income statement,
   * cash flow, then per-share data, operating-expense breakdown, margins and
   * yields, stopping at the first exception.
   */
  function AllStatementsStep(b: Books, incomeRaw: RawStatement, balanceRaw: RawStatement,
                             cashFlowRaw: RawStatement, prices: seq<PriceRow>, inX: Token)
    : (r: Step)
    requires BooksValid(b) && MetricsUnset(b)
    requires WellFormed(incomeRaw) && WellFormed(balanceRaw) && WellFormed(cashFlowRaw)
    ensures BooksValid(r.books)
  {
    var s1 := BalanceSheetStep(b, balanceRaw, prices, inX);
    if s1.status.Raised? then s1 else
    var s2 := IncomeStatementStep(s1.books, incomeRaw, prices, inX);
    if s2.status.Raised? then s2 else
    var s3 := CashFlowStep(s2.books, cashFlowRaw, prices, inX);
    if s3.status.Raised? then s3 else
    var s4 := PerShareStep(s3.books);
    if s4.status.Raised? then s4 else
    var s5 := OperatingExpenseStep(s4.books);
    if s5.status.Raised? then s5 else
    var s6 := MarginsStep(s5.books);
    if s6.status.Raised? then s6 else
    YieldsStep(s6.books)
  }

  /**
   * When `set_all_statements` returns, the statements were enriched in turn,
   * each from the tables the previous call left (the income statement and the
   * cash flow read the new balance sheet's share counts), and every metric
   * table is its metric of those final statements.
   */
  lemma AllStatementsDone(b: Books, incomeRaw: RawStatement, balanceRaw: RawStatement,
                          cashFlowRaw: RawStatement, prices: seq<PriceRow>, inX: Token)
    requires BooksValid(b) && MetricsUnset(b)
    requires WellFormed(incomeRaw) && WellFormed(balanceRaw) && WellFormed(cashFlowRaw)
    requires AllStatementsStep(b, incomeRaw, balanceRaw, cashFlowRaw, prices, inX).status == Done
    ensures var s1 := BalanceSheetStep(b, balanceRaw, prices, inX);
      var s2 := IncomeStatementStep(s1.books, incomeRaw, prices, inX);
      var s3 := CashFlowStep(s2.books, cashFlowRaw, prices, inX);
      var r := AllStatementsStep(b, incomeRaw, balanceRaw, cashFlowRaw, prices, inX).books;
      && s1.status == Done && s2.status == Done && s3.status == Done
      && r.balance == s1.books.balance && r.income == s2.books.income && r.cashFlow == s3.books.cashFlow
    ensures var r := AllStatementsStep(b, incomeRaw, balanceRaw, cashFlowRaw, prices, inX).books;
      && PerShare(r.balance, r.cashFlow) == Success(r.perShare)
      && OperatingExpenseBreakdown(r.income) == Success(r.operatingExpenses)
      && Margins(r.income) == Success(r.margins)
      && Yields(r.balance, r.cashFlow) == Success(r.yieldTable)
  {
    var s1 := BalanceSheetStep(b, balanceRaw, prices, inX);
    var s2 := IncomeStatementStep(s1.books, incomeRaw, prices, inX);
    var s3 := CashFlowStep(s2.books, cashFlowRaw, prices, inX);
    var s4 := PerShareStep(s3.books);
    var s5 := OperatingExpenseStep(s4.books);
    var s6 := MarginsStep(s5.books);
    var s7 := YieldsStep(s6.books);
    assert s1.status == Done && s2.status == Done && s3.status == Done;
    assert s4.status == Done && s5.status == Done && s6.status == Done && s7.status == Done;
    assert s2.books.balance == s1.books.balance;
    assert s3.books.balance == s1.books.balance && s3.books.income == s2.books.income;
    assert AllStatementsStep(b, incomeRaw, balanceRaw, cashFlowRaw, prices, inX) == s7;
  }

  /**
   * After `set_all_statements` the yields of the first period are all NaN:
   * they are taken over the balance sheet's average market cap, which the
   * aligner never gives the first period.
   */
  lemma FirstPeriodWithoutYields(b: Books, incomeRaw: RawStatement, balanceRaw: RawStatement,
                                 cashFlowRaw: RawStatement, prices: seq<PriceRow>, inX: Token, k: nat)
    requires BooksValid(b) && MetricsUnset(b)
    requires WellFormed(incomeRaw) && WellFormed(balanceRaw) && WellFormed(cashFlowRaw)
    requires AllStatementsStep(b, incomeRaw, balanceRaw, cashFlowRaw, prices, inX).status == Done
    requires balanceRaw.periods != [] && k < |YieldColumns|
    ensures var y := AllStatementsStep(b, incomeRaw, balanceRaw, cashFlowRaw, prices, inX).books.yieldTable;
      && YieldColumns[k] in y.rows && balanceRaw.periods[0] in y.rows[YieldColumns[k]]
      && y.rows[YieldColumns[k]][balanceRaw.periods[0]].Missing?
  {
    AllStatementsDone(b, incomeRaw, balanceRaw, cashFlowRaw, prices, inX);
    var r := AllStatementsStep(b, incomeRaw, balanceRaw, cashFlowRaw, prices, inX).books;
    var t := Normalise(balanceRaw).value;
    var s := GetScaler(inX).value;
    assert r.balance == EnrichedBalanceSheet(t, b.income, prices, Some(s)).balance;
    BalanceSheetFirstPeriod(t, b.income, prices, s);
    YieldsMissingMarketCap(r.balance, r.cashFlow, k, t.periods[0]);
  }

  /**
   * The income statement's market caps come from the balance sheet held when
   * it is set: for every period after the first, multiplying the scaled cap
   * back by the scaler gives that balance sheet's share count times the
   * highest price since the period before (0 where the count is absent).
   */
  lemma IncomeCapsUseBalanceShares(b: Books, raw: RawStatement, prices: seq<PriceRow>, inX: Token, k: nat)
    requires BooksValid(b) && WellFormed(raw) && Normalise(raw).Success? && GetScaler(inX).Some?
    requires 0 < k < |Normalise(raw).value.periods|
    ensures var periods := Normalise(raw).value.periods;
      var p := periods[k];
      var r := IncomeStatementStep(b, raw, prices, inX).books.income;
      && MarketCapHigh in r.rows && p in r.rows[MarketCapHigh]
      && Mul(r.rows[MarketCapHigh][p], Num(GetScaler(inX).value as real)) ==
           CapOf(SharesAt(b.balance, p), SliceHigh(PeriodWindow(periods, k, prices)))
  {
    var t := Normalise(raw).value;
    var s := GetScaler(inX).value;
    assert s > 0;
    assert IncomeStatementStep(b, raw, prices, inX).books.income ==
      EnrichedStatement(t, AlignedPrices(t.periods, prices, b.balance), Some(s)).table;
    EnrichedCapAt(t, prices, b.balance, s, k);
  }

  /**
   * The branches of `set_income_statement` and `set_cash_flow` once the
   * statement is cleaned and the unit known: a statement with periods ends
   * enriched, one without raises ValueError holding the cleaned table.
   */
  lemma StatementStepsDone(b: Books, raw: RawStatement, prices: seq<PriceRow>, inX: Token)
    requires BooksValid(b) && WellFormed(raw) && Normalise(raw).Success? && GetScaler(inX).Some?
    ensures var t := Normalise(raw).value;
      var pd := AlignedPrices(t.periods, prices, b.balance);
      Tables.Valid(Scaled(WithMarketCaps(t, pd), GetScaler(inX).value as real))
    ensures var t := Normalise(raw).value;
      var pd := AlignedPrices(t.periods, prices, b.balance);
      var enriched := WithStockPrices(Scaled(WithMarketCaps(t, pd), GetScaler(inX).value as real), pd);
      t.periods != [] ==>
        && IncomeStatementStep(b, raw, prices, inX) ==
             Step(if SharesOutstanding in b.balance.rows then Done else Raised(MissingRow(SharesOutstanding)),
                  b.(income := enriched))
        && CashFlowStep(b, raw, prices, inX) == Step(Done, b.(cashFlow := enriched))
    ensures var t := Normalise(raw).value;
      t.periods == [] ==>
        && IncomeStatementStep(b, raw, prices, inX) == Step(Raised(NoPeriodColumns), b.(income := t))
        && CashFlowStep(b, raw, prices, inX) == Step(Raised(NoPeriodColumns), b.(cashFlow := t))
  {
    var t := Normalise(raw).value;
    StatementShape(t, AlignedPrices(t.periods, prices, b.balance), GetScaler(inX).value);
  }

  /**
   * With an unknown unit both setters raise: TypeError holding the market-cap
   * rows, or first the ValueError of a statement without periods.
   */
  lemma StatementStepsUnknownUnit(b: Books, raw: RawStatement, prices: seq<PriceRow>,
                                  inX: Token)
    requires BooksValid(b) && WellFormed(raw) && Normalise(raw).Success? && GetScaler(inX).None?
    ensures var t := Normalise(raw).value;
      var pd := AlignedPrices(t.periods, prices, b.balance);
      t.periods != [] ==>
        && IncomeStatementStep(b, raw, prices, inX) ==
             Step(Raised(UnknownScaleUnit), b.(income := WithMarketCaps(t, pd)))
        && CashFlowStep(b, raw, prices, inX) ==
             Step(Raised(UnknownScaleUnit), b.(cashFlow := WithMarketCaps(t, pd)))
    ensures var t := Normalise(raw).value;
      t.periods == [] ==>
        && IncomeStatementStep(b, raw, prices, inX) == Step(Raised(NoPeriodColumns), b.(income := t))
        && CashFlowStep(b, raw, prices, inX) == Step(Raised(NoPeriodColumns), b.(cashFlow := t))
  {
  }

  /**
   * The branches of `set_balance_sheet` once the statement is cleaned: the
   * KeyError of a missing input row, the ValueError of a sheet without
   * periods, or the market-data step on the sheet with its derived rows.
   */
  lemma BalanceSheetStepBranches(b: Books, raw: RawStatement, prices: seq<PriceRow>, inX: Token)
    requires BooksValid(b) && WellFormed(raw) && Normalise(raw).Success?
    ensures var t := Normalise(raw).value;
      WithDerivedRows(t).Failure? ==>
        BalanceSheetStep(b, raw, prices, inX) == Step(Raised(WithDerivedRows(t).error), b.(balance := t))
    ensures var t := Normalise(raw).value;
      WithDerivedRows(t).Success? && t.periods == [] ==>
        BalanceSheetStep(b, raw, prices, inX) == Step(Raised(NoPeriodColumns), b.(balance := t))
    ensures var t := Normalise(raw).value;
      WithDerivedRows(t).Success? && t.periods != [] ==>
        var d := WithDerivedRows(t).value;
        BalanceSheetStep(b, raw, prices, inX) == MarketDataStep(b.(balance := d), AlignedPrices(d.periods, prices, d), inX)
  {
    var t := Normalise(raw).value;
    if WithDerivedRows(t).Success? && t.periods != [] {
      var d := WithDerivedRows(t).value;
      var pd := AlignedPrices(d.periods, prices, d);
      match GetScaler(inX)
      case None =>
        assert EnrichedBalanceSheet(t, b.income, prices, None) ==
          BalanceOutcome(Raised(UnknownScaleUnit), WithMarketCaps(d, pd), b.income);
      case Some(s) =>
        BalanceSheetShape(t, b.income, prices, s);
    }
  }

  /**
   * An `Asset`: the unit its statements are given in, the daily price
   * history its data manager would load, and the seven tables the setters fill.
   */
  class Asset {
    const inX: Token
    const priceHistory: seq<PriceRow>
    var incomeStatement: Table
    var balanceSheet: Table
    var cashFlow: Table
    var perShare: Table
    var margins: Table
    var operatingExpensesBreakdown: Table
    var yieldTable: Table

    /** The seven tables as one value. */
    function Snapshot(): Books
      reads this
    {
      Books(incomeStatement, balanceSheet, cashFlow, perShare, margins, operatingExpensesBreakdown, yieldTable)
    }

    ghost predicate Valid()
      reads this
    {
      BooksValid(Snapshot())
    }

    constructor(inX: Token, priceHistory: seq<PriceRow>)
      ensures this.inX == inX && this.priceHistory == priceHistory
      ensures Snapshot() == NoBooks && Valid()
    {
      this.inX := inX;
      this.priceHistory := priceHistory;
      incomeStatement := Empty;
      balanceSheet := Empty;
      cashFlow := Empty;
      perShare := Empty;
      margins := Empty;
      operatingExpensesBreakdown := Empty;
      yieldTable := Empty;
    }

    /**
     * `get_matching_stock_prices(columns)`: walks the labels once, keeping
     * the previous label as the lower end of the next window, and stores each
     * label's prices and market caps in the six dicts.
     */
    method GetMatchingStockPrices(columns: seq<int>) returns (pd: PriceData)
      ensures pd == AlignedPrices(columns, priceHistory, balanceSheet)
    {
      ghost var entries := Entries(columns, priceHistory, balanceSheet);
      pd := PriceData(map[], map[], map[], map[], map[], map[]);
      var index := 0;
      var prevIndex := 0;
      while index < |columns|
        invariant 0 <= index <= |columns|
        invariant pd == Recorded(columns[..index], entries[..index])
        invariant index > 0 ==> prevIndex == columns[index - 1]
      {
        var i := columns[index];
        var e: Entry;
        if index == 0 {
          e := Entry(Some(Num(0.0)), Some(Num(0.0)), Some(Num(0.0)), None, None, None);
        } else {
          var priceSlices := Window(priceHistory, prevIndex, i);
          var sliceHigh := SliceHigh(priceSlices);
          var sliceLow := SliceLow(priceSlices);
          var sliceAverage := SliceAverage(priceSlices);
          var shares := SharesAt(balanceSheet, i);
          e := Entry(Some(sliceHigh), Some(sliceLow), Some(sliceAverage),
                     Some(CapOf(shares, sliceHigh)), Some(CapOf(shares, sliceLow)), Some(CapOf(shares, sliceAverage)));
        }
        assert e == entries[index];
        assert columns[..index + 1][..index] == columns[..index];
        assert entries[..index + 1][..index] == entries[..index];
        pd := Record(pd, i, e);
        prevIndex := i;
        index := index + 1;
      }
      assert columns[..index] == columns && entries[..index] == entries;
    }

    /**
     * `set_balance_sheet(df)`: cleans the statement, adds the derived and
     * market-cap rows, divides the income statement's rows by the scaler and
     * adds the stock rows; an exception leaves what was set so far.
     */
    method SetBalanceSheet(raw: RawStatement) returns (status: Status)
      requires Valid() && WellFormed(raw)
      modifies this
      ensures Valid()
      ensures Step(status, Snapshot()) == BalanceSheetStep(old(Snapshot()), raw, priceHistory, inX)
    {
      ghost var before := Snapshot();
      var cleaned := Normalise(raw);
      if cleaned.Failure? {
        return Raised(cleaned.error);
      }
      BalanceSheetStepBranches(before, raw, priceHistory, inX);
      balanceSheet := cleaned.value;
      assert Snapshot() == before.(balance := cleaned.value);
      var derived := WithDerivedRows(balanceSheet);
      if derived.Failure? {
        return Raised(derived.error);
      }
      if balanceSheet.periods == [] {
        return Raised(NoPeriodColumns);
      }
      balanceSheet := derived.value;
      assert Snapshot() == before.(balance := derived.value);
      var priceData := GetMatchingStockPrices(balanceSheet.periods);
      status := AddBalanceSheetMarketData(priceData);
    }

    /**
     * The second half of `set_balance_sheet` (lines 135-146): the market-cap
     * rows, the income statement's rows divided by the scaler, the stock rows.
     */
    method AddBalanceSheetMarketData(priceData: PriceData) returns (status: Status)
      requires Valid()
      modifies this
      ensures Valid()
      ensures Step(status, Snapshot()) == MarketDataStep(old(Snapshot()), priceData, inX)
    {
      ghost var before := Snapshot();
      if balanceSheet.periods == [] {
        return Raised(NoPeriodColumns);
      }
      var scaler := GetScaler(inX);
      balanceSheet := WithMarketCaps(balanceSheet, priceData);
      if scaler.None? {
        assert Snapshot() == before.(balance := balanceSheet);
        return Raised(UnknownScaleUnit);
      }
      incomeStatement := DivideEachRow(incomeStatement, scaler.value as real);
      balanceSheet := WithStockPrices(balanceSheet, priceData);
      assert Snapshot() == before.(balance := balanceSheet, income := incomeStatement);
      return Done;
    }

    /**
     * `set_income_statement(df)`: cleans the statement, adds the market-cap
     * rows, divides every row by the scaler, adds the stock rows, leaves the
     * split adjustment as the no-op it is, and reads the balance sheet's
     * share-count row for the closing print.
     */
    method SetIncomeStatement(raw: RawStatement) returns (status: Status)
      requires Valid() && WellFormed(raw)
      modifies this
      ensures Valid()
      ensures Step(status, Snapshot()) == IncomeStatementStep(old(Snapshot()), raw, priceHistory, inX)
    {
      ghost var before := Snapshot();
      var cleaned := Normalise(raw);
      if cleaned.Failure? {
        return Raised(cleaned.error);
      }
      incomeStatement := cleaned.value;
      var priceData := GetMatchingStockPrices(incomeStatement.periods);
      var scaler := GetScaler(inX);
      var enriched := Enrich(incomeStatement, priceData, scaler);
      incomeStatement := enriched.table;
      assert Snapshot() == before.(income := enriched.table);
      if enriched.status.Raised? {
        return enriched.status;
      }
      if SharesOutstanding !in balanceSheet.rows {
        return Raised(MissingRow(SharesOutstanding));
      }
      return Done;
    }

    /** `set_cash_flow(df)`: the same steps as the income statement, without the print. */
    method SetCashFlow(raw: RawStatement) returns (status: Status)
      requires Valid() && WellFormed(raw)
      modifies this
      ensures Valid()
      ensures Step(status, Snapshot()) == CashFlowStep(old(Snapshot()), raw, priceHistory, inX)
    {
      ghost var before := Snapshot();
      var cleaned := Normalise(raw);
      if cleaned.Failure? {
        return Raised(cleaned.error);
      }
      cashFlow := cleaned.value;
      var priceData := GetMatchingStockPrices(cashFlow.periods);
      var scaler := GetScaler(inX);
      var enriched := Enrich(cashFlow, priceData, scaler);
      cashFlow := enriched.table;
      assert Snapshot() == before.(cashFlow := enriched.table);
      return enriched.status;
    }

    /** `set_per_share_data()` */
    method SetPerShareData() returns (status: Status)
      requires Valid() && perShare == Empty
      modifies this
      ensures Valid()
      ensures Step(status, Snapshot()) == PerShareStep(old(Snapshot()))
    {
      var r := PerShare(balanceSheet, cashFlow);
      if r.Failure? {
        return Raised(r.error);
      }
      perShare := r.value;
      return Done;
    }

    /** `set_margins()` */
    method SetMargins() returns (status: Status)
      requires Valid() && margins == Empty
      modifies this
      ensures Valid()
      ensures Step(status, Snapshot()) == MarginsStep(old(Snapshot()))
    {
      var r := Margins(incomeStatement);
      if r.Failure? {
        return Raised(r.error);
      }
      margins := r.value;
      return Done;
    }

    /** `set_operating_expense_breakdown()` */
    method SetOperatingExpenseBreakdown() returns (status: Status)
      requires Valid() && operatingExpensesBreakdown == Empty
      modifies this
      ensures Valid()
      ensures Step(status, Snapshot()) == OperatingExpenseStep(old(Snapshot()))
    {
      var r := OperatingExpenseBreakdown(incomeStatement);
      if r.Failure? {
        return Raised(r.error);
      }
      operatingExpensesBreakdown := r.value;
      return Done;
    }

    /** `set_yields()` */
    method SetYields() returns (status: Status)
      requires Valid() && yieldTable == Empty
      modifies this
      ensures Valid()
      ensures Step(status, Snapshot()) == YieldsStep(old(Snapshot()))
    {
      var r := Yields(balanceSheet, cashFlow);
      if r.Failure? {
        return Raised(r.error);
      }
      yieldTable := r.value;
      return Done;
    }

    /** `set_all_statements(income_statement, balance_sheet, cash_flow)` */
    method SetAllStatements(incomeRaw: RawStatement, balanceRaw: RawStatement, cashFlowRaw: RawStatement)
      returns (status: Status)
      requires Valid() && MetricsUnset(Snapshot())
      requires WellFormed(incomeRaw) && WellFormed(balanceRaw) && WellFormed(cashFlowRaw)
      modifies this
      ensures Valid()
      ensures Step(status, Snapshot()) ==
        AllStatementsStep(old(Snapshot()), incomeRaw, balanceRaw, cashFlowRaw, priceHistory, inX)
    {
      status := SetBalanceSheet(balanceRaw);
      if status.Raised? {
        return;
      }
      status := SetIncomeStatement(incomeRaw);
      if status.Raised? {
        return;
      }
      status := SetCashFlow(cashFlowRaw);
      if status.Raised? {
        return;
      }
      status := SetPerShareData();
      if status.Raised? {
        return;
      }
      status := SetOperatingExpenseBreakdown();
      if status.Raised? {
        return;
      }
      status := SetMargins();
      if status.Raised? {
        return;
      }
      status := SetYields();
    }
  }
}
