/**
 * The four metric tables (asset.py lines 195-311): per-share figures, margins,
 * the operating-expense breakdown and yields. Each reads some statement rows,
 * divides them element-wise by one denominator row and is transposed, so the
 * metrics are its rows and the periods its columns.
 */
module Metrics {
  import opened Outcomes
  import opened Cells
  import opened Tables
  import opened Prices
  import opened Statements

  /** A row read by a metric setter: from the first statement, or from the second when `second`. */
  datatype Lookup = Lookup(second: bool, name: string)

  function Source(a: Table, b: Table, l: Lookup): Table {
    if l.second then b else a
  }

  predicate Resolves(a: Table, b: Table, l: Lookup) {
    l.name in Source(a, b, l).rows
  }

  /** How many of the lookups, taken in order, succeed before the first that fails. */
  function FirstUnresolved(a: Table, b: Table, ls: seq<Lookup>): (i: nat)
    ensures i <= |ls|
    ensures forall k :: 0 <= k < i ==> Resolves(a, b, ls[k])
    ensures i < |ls| ==> !Resolves(a, b, ls[i])
  {
    if ls == [] || !Resolves(a, b, ls[0]) then 0 else 1 + FirstUnresolved(a, b, ls[1..])
  }

  /** The rows looked up in turn, or the KeyError of the first lookup that fails. */
  function Fetch(a: Table, b: Table, ls: seq<Lookup>): (r: Result<seq<Row>, Error>)
    ensures r.Success? <==> forall k :: 0 <= k < |ls| ==> Resolves(a, b, ls[k])
    ensures r.Failure? ==>
      FirstUnresolved(a, b, ls) < |ls| && r.error == MissingRow(ls[FirstUnresolved(a, b, ls)].name)
    ensures r.Success? ==> |r.value| == |ls|
    ensures r.Success? ==> forall k :: 0 <= k < |ls| ==> r.value[k] == Source(a, b, ls[k]).rows[ls[k].name]
  {
    if ls == [] then Success([])
    else
      var row :- GetRow(Source(a, b, ls[0]), ls[0].name);
      var rest :- Fetch(a, b, ls[1..]);
      assert forall k :: 1 <= k < |ls| ==> ls[k] == ls[1..][k - 1];
      Success([row] + rest)
  }

  /**
   * Whether the series `op(numerator, denominator)` has period `p`. The
   * denominator is read from the first statement, so the series runs over the
   * first statement's periods, joined with the second's when the numerator
   * is read from there.
   */
  predicate InSeries(a: Table, b: Table, l: Lookup, p: int) {
    p in a.periods || (l.second && p in b.periods)
  }

  /**
   * An assigned column realigned on the table's index: `op` of the aligned
   * cells where the series has the period, NaN where it does not.
   */
  function Column(index: seq<int>, a: Table, b: Table, l: Lookup, numerator: Row, denominator: Row,
                  op: (Cell, Cell) -> Cell): (r: Row)
    ensures Covers(index, r)
  {
    map p | p in index :: if InSeries(a, b, l, p) then op(At(numerator, p), At(denominator, p)) else Missing
  }

  /** The columns of a metric table, one per numerator. */
  function Columns(index: seq<int>, a: Table, b: Table, lookups: seq<Lookup>, numerators: seq<Row>,
                   denominator: Row, op: (Cell, Cell) -> Cell): (r: seq<Row>)
    requires |lookups| == |numerators|
    ensures |r| == |numerators|
    ensures forall k :: 0 <= k < |r| ==> Covers(index, r[k])
  {
    seq(|numerators|, k requires 0 <= k < |numerators| =>
      Column(index, a, b, lookups[k], numerators[k], denominator, op))
  }

  /**
   * The index pandas gives the table: that of the first non-empty column
   * assigned to the empty frame. The first column reads the first statement,
   * so this is the first statement's periods when it has any; otherwise the
   * first column read from the second statement gives the second's periods
   * (joining an index with an empty one keeps it), and without such a column
   * the table has no periods.
   */
  function FrameIndex(a: Table, b: Table, ls: seq<Lookup>): seq<int> {
    if a.periods != [] then a.periods
    else if exists k :: 0 <= k < |ls| && ls[k].second then b.periods
    else []
  }

  /**
   * The metric table after `.T`: the metric names are its rows, in the order
   * their columns were assigned, and the periods are its columns.
   */
  function MetricTable(periods: seq<int>, names: seq<string>, rows: seq<Row>): (t: Table)
    requires Distinct(periods) && Distinct(names) && |rows| == |names|
    requires forall k :: 0 <= k < |rows| ==> Covers(periods, rows[k])
    ensures Valid(t) && t.index == names && t.periods == periods
    ensures forall k :: 0 <= k < |names| ==> names[k] in t.rows && t.rows[names[k]] == rows[k]
  {
    Table(names, periods, map k | 0 <= k < |names| :: names[k] := rows[k])
  }

  /** `(a / b) * 100` with no fill: the margins and yields. */
  function PercentOf(a: Cell, b: Cell): (c: Cell)
    ensures a.Num? && b.Num? && b.v != 0.0 ==> c == Num(a.v / b.v * 100.0)
    ensures a.Num? && b.Num? && b.v == 0.0 ==> (c.Missing? <==> a.v == 0.0)
    ensures a.Missing? || b.Missing? ==> c.Missing?
  {
    Mul(Div(a, b), Num(100.0))
  }

  /** `(a / b.fillna(0)) * 100`: the operating-expense shares, whose denominator alone is filled. */
  function PercentOfFilled(a: Cell, b: Cell): (c: Cell)
    ensures b.Missing? && a.Num? ==> (if a.v == 0.0 then c.Missing? else c.Inf?)
    ensures !b.Missing? ==> c == PercentOf(a, b)
  {
    PercentOf(a, FillNa(b, 0.0))
  }

  /** A part of a positive whole is between 0 and 100 percent of it. */
  lemma PercentBounds(x: real, whole: real)
    requires whole > 0.0 && 0.0 <= x <= whole
    ensures 0.0 <= x / whole * 100.0 <= 100.0
  {
    DivideBounds(x, whole, 0.0, 1.0);
  }

  /** The percentages two parts make of the whole they add up to add up to 100. */
  lemma PercentSum(a: real, b: real, whole: real, pa: real, pb: real)
    requires whole != 0.0 && a + b == whole
    requires pa == a / whole * 100.0 && pb == b / whole * 100.0
    ensures pa + pb == 100.0
  {
    assert pa + pb == (a + b) / whole * 100.0;
  }

  /** A percentage of a non-zero whole, divided by 100 and multiplied back by the whole, is the part. */
  lemma PercentRoundTrip(a: Cell, b: Cell)
    requires a.Num? && b.Num? && b.v != 0.0
    ensures Mul(Div(PercentOf(a, b), Num(100.0)), b) == a
  {
    var x := a.v;
    var w := b.v;
    assert x / w * 100.0 / 100.0 * w == x;
  }

  // Statement rows the metrics read.
  const CashAndShortTermInvestments: string := "cashAndShortTermInvestments"
  const ShortTermDebt: string := "shortTermDebt"
  const LongTermDebt: string := "longTermDebt"
  const TotalShareholderEquity: string := "totalShareholderEquity"
  const DividendPayout: string := "dividendPayout"
  const DividendPayoutCommonStock: string := "dividendPayoutCommonStock"
  const DividendPayoutPreferredStock: string := "dividendPayoutPreferredStock"
  const RepurchaseOfCommonStock: string := "paymentsForRepurchaseOfCommonStock"
  const RepurchaseOfPreferredStock: string := "paymentsForRepurchaseOfPreferredStock"
  const TotalRevenue: string := "totalRevenue"
  const GrossProfit: string := "grossProfit"
  const OperatingIncome: string := "operatingIncome"
  const NetIncome: string := "netIncome"
  const ResearchAndDevelopment: string := "researchAndDevelopment"
  const SellingGeneralAndAdministrative: string := "sellingGeneralAndAdministrative"
  const OperatingExpenses: string := "operatingExpenses"

  /** Lines 197-244: the share count first, then four balance-sheet and five cash-flow rows. */
  const PerShareLookups: seq<Lookup> := [
    Lookup(false, SharesOutstanding),
    Lookup(false, CashAndShortTermInvestments), Lookup(false, ShortTermDebt),
    Lookup(false, LongTermDebt), Lookup(false, TotalShareholderEquity),
    Lookup(true, DividendPayout), Lookup(true, DividendPayoutCommonStock),
    Lookup(true, DividendPayoutPreferredStock), Lookup(true, RepurchaseOfCommonStock),
    Lookup(true, RepurchaseOfPreferredStock)]

  const PerShareColumns: seq<string> := [
    "cash", "short_term_debt", "long_term_debt", "book", "dividends", "common_stock_dividend",
    "preferred_stock_dividends", "share_buy_backs", "preferred_share_buy_backs"]

  /** Lines 249-254: the revenue first, then the three numerators. */
  const MarginLookups: seq<Lookup> := [
    Lookup(false, TotalRevenue), Lookup(false, GrossProfit),
    Lookup(false, OperatingIncome), Lookup(false, NetIncome)]

  const MarginColumns: seq<string> := ["gross_margin", "operating_margin", "net_profit_margin"]

  /** Lines 265-270: the two numerators, then the operating expenses. */
  const OperatingExpenseLookups: seq<Lookup> := [
    Lookup(false, ResearchAndDevelopment), Lookup(false, SellingGeneralAndAdministrative),
    Lookup(false, OperatingExpenses)]

  const OperatingExpenseColumns: seq<string> := ["r&d", "sg&a"]

  /** Lines 283-295: three balance-sheet rows, four cash-flow rows, then the average market cap. */
  const YieldLookups: seq<Lookup> := [
    Lookup(false, CashAndShortTermInvestments), Lookup(false, ShortTermDebt),
    Lookup(false, LongTermDebt),
    Lookup(true, RepurchaseOfCommonStock), Lookup(true, RepurchaseOfPreferredStock),
    Lookup(true, DividendPayoutCommonStock), Lookup(true, DividendPayoutPreferredStock),
    Lookup(false, MarketCapAverage)]

  const YieldColumns: seq<string> := [
    "cash", "short_term_debt", "long_term_debt", "share_buy_backs", "preferred_share_buy_backs",
    "dividends", "preferred_dividends"]

  /** Per-share figures after the fourth are read from the cash flow. */
  lemma PerShareReadsCashFlow(k: nat)
    requires k < |PerShareColumns|
    ensures NumeratorLookup(PerShareLookups, true, k).second <==> k >= 4
  {
  }

  lemma ColumnsDistinct()
    ensures Distinct(PerShareColumns) && Distinct(MarginColumns)
    ensures Distinct(OperatingExpenseColumns) && Distinct(YieldColumns)
  {
  }

  /** The row a lookup that resolves reads. */
  function Resolve(a: Table, b: Table, l: Lookup): Row
    requires Resolves(a, b, l)
  {
    Source(a, b, l).rows[l.name]
  }

  /** The lookup of the k-th metric's numerator, and that of the shared denominator. */
  function NumeratorLookup(ls: seq<Lookup>, denominatorFirst: bool, k: nat): Lookup
    requires k + 1 < |ls|
  {
    if denominatorFirst then ls[k + 1] else ls[k]
  }

  function DenominatorLookup(ls: seq<Lookup>, denominatorFirst: bool): Lookup
    requires ls != []
  {
    if denominatorFirst then ls[0] else ls[|ls| - 1]
  }

  /** The fetched rows other than the denominator, in order. */
  function Numerators<T>(rows: seq<T>, denominatorFirst: bool): (r: seq<T>)
    requires rows != []
    ensures |r| == |rows| - 1
    ensures forall k :: 0 <= k < |r| ==> r[k] == rows[if denominatorFirst then k + 1 else k]
  {
    if denominatorFirst then rows[1..] else rows[..|rows| - 1]
  }

  function Denominator(rows: seq<Row>, denominatorFirst: bool): Row
    requires rows != []
  {
    if denominatorFirst then rows[0] else rows[|rows| - 1]
  }

  /**
   * The lookups of a metric setter read the denominator and the first
   * numerator from the first statement, as all four setters do.
   */
  predicate FirstStatementLeads(ls: seq<Lookup>, denominatorFirst: bool)
    requires |ls| >= 2
  {
    !NumeratorLookup(ls, denominatorFirst, 0).second && !DenominatorLookup(ls, denominatorFirst).second
  }

  /**
   * A metric setter: the rows are read in the order of `ls`, the shared
   * denominator being the first or the last of them, and every metric is
   * `op` of its numerator and the denominator. The columns are assigned to
   * an empty frame, whose index the first non-empty column sets: the first
   * statement's periods, or, when it has none, the second statement's if a
   * metric reads from there.
   */
  function Metric(a: Table, b: Table, ls: seq<Lookup>, columns: seq<string>, denominatorFirst: bool,
                  op: (Cell, Cell) -> Cell): (r: Result<Table, Error>)
    requires Valid(a) && Valid(b) && Distinct(columns) && |ls| == |columns| + 1 && columns != []
    requires FirstStatementLeads(ls, denominatorFirst)
    ensures r.Success? <==> forall k :: 0 <= k < |ls| ==> Resolves(a, b, ls[k])
    ensures r.Failure? ==> r.error == MissingRow(ls[FirstUnresolved(a, b, ls)].name)
    ensures r.Success? ==> Valid(r.value) && r.value.index == columns
    ensures r.Success? && a.periods != [] ==> r.value.periods == a.periods
    ensures r.Success? && a.periods == [] ==>
      r.value.periods == (if exists k :: 0 <= k < |ls| && ls[k].second then b.periods else [])
  {
    var rows :- Fetch(a, b, ls);
    var index := FrameIndex(a, b, ls);
    var numerators := Numerators(rows, denominatorFirst);
    var cols := Columns(index, a, b, Numerators(ls, denominatorFirst), numerators, Denominator(rows, denominatorFirst), op);
    Success(MetricTable(index, columns, cols))
  }

  /**
   * Each cell of a metric table, at any of its periods, is `op` of its
   * numerator's and the denominator's cells where the column's series has
   * the period, and NaN where the realignment adds it.
   */
  lemma MetricCell(a: Table, b: Table, ls: seq<Lookup>, columns: seq<string>, denominatorFirst: bool,
                   op: (Cell, Cell) -> Cell, k: nat, p: int)
    requires Valid(a) && Valid(b) && Distinct(columns) && |ls| == |columns| + 1 && columns != []
    requires FirstStatementLeads(ls, denominatorFirst)
    requires Metric(a, b, ls, columns, denominatorFirst, op).Success?
    requires k < |columns| && p in Metric(a, b, ls, columns, denominatorFirst, op).value.periods
    ensures Resolves(a, b, NumeratorLookup(ls, denominatorFirst, k))
    ensures Resolves(a, b, DenominatorLookup(ls, denominatorFirst))
    ensures var t := Metric(a, b, ls, columns, denominatorFirst, op).value;
      && columns[k] in t.rows && p in t.rows[columns[k]]
      && t.rows[columns[k]][p] ==
           if InSeries(a, b, NumeratorLookup(ls, denominatorFirst, k), p) then
             op(At(Resolve(a, b, NumeratorLookup(ls, denominatorFirst, k)), p),
                At(Resolve(a, b, DenominatorLookup(ls, denominatorFirst)), p))
           else Missing
  {
    var rows := Fetch(a, b, ls).value;
    var index := FrameIndex(a, b, ls);
    var numerators := Numerators(rows, denominatorFirst);
    var lookups := Numerators(ls, denominatorFirst);
    var cols := Columns(index, a, b, lookups, numerators, Denominator(rows, denominatorFirst), op);
    assert Metric(a, b, ls, columns, denominatorFirst, op).value == MetricTable(index, columns, cols);
    assert numerators[k] == Resolve(a, b, NumeratorLookup(ls, denominatorFirst, k));
    assert Denominator(rows, denominatorFirst) == Resolve(a, b, DenominatorLookup(ls, denominatorFirst));
    assert lookups[k] == NumeratorLookup(ls, denominatorFirst, k);
    assert cols[k] == Column(index, a, b, lookups[k], numerators[k], Denominator(rows, denominatorFirst), op);
  }

  /**
   * `set_per_share_data` (lines 195-245): each of nine rows over the share
   * count, quotients that are NaN filled with 0, one row per metric and one
   * column per balance-sheet period, or per cash-flow period when the balance
   * sheet has none; or the KeyError of the first row read that is absent.
   */
  function PerShare(bs: Table, cf: Table): (r: Result<Table, Error>)
    requires Valid(bs) && Valid(cf)
    ensures r.Success? <==> forall k :: 0 <= k < |PerShareLookups| ==> Resolves(bs, cf, PerShareLookups[k])
    ensures r.Failure? ==> r.error == MissingRow(PerShareLookups[FirstUnresolved(bs, cf, PerShareLookups)].name)
    ensures r.Success? ==> Valid(r.value) && r.value.index == PerShareColumns
    ensures r.Success? ==> r.value.periods == if bs.periods != [] then bs.periods else cf.periods
  {
    ColumnsDistinct();
    assert PerShareLookups[5].second;
    Metric(bs, cf, PerShareLookups, PerShareColumns, true, QuotientOrZero)
  }

  /** The k-th per-share figure: the k-th row read after the share count, over the share count. */
  lemma PerShareCell(bs: Table, cf: Table, k: nat, p: int)
    requires Valid(bs) && Valid(cf) && PerShare(bs, cf).Success? && k < |PerShareColumns| && p in bs.periods
    ensures SharesOutstanding in bs.rows && Resolves(bs, cf, PerShareLookups[k + 1])
    ensures var t := PerShare(bs, cf).value;
      && PerShareColumns[k] in t.rows && p in t.rows[PerShareColumns[k]]
      && t.rows[PerShareColumns[k]][p] ==
           QuotientOrZero(At(Resolve(bs, cf, PerShareLookups[k + 1]), p), bs.rows[SharesOutstanding][p])
  {
    ColumnsDistinct();
    MetricCell(bs, cf, PerShareLookups, PerShareColumns, true, QuotientOrZero, k, p);
  }

  /** The share count is read first: without it nothing else is looked up. */
  lemma PerShareNeedsShares(bs: Table, cf: Table)
    requires Valid(bs) && Valid(cf) && SharesOutstanding !in bs.rows
    ensures PerShare(bs, cf) == Failure(MissingRow(SharesOutstanding))
  {
    assert !Resolves(bs, cf, PerShareLookups[0]);
  }

  /**
   * A per-share figure is NaN exactly when it is one of the four read from a
   * balance sheet without periods: the filled quotients are never NaN, but
   * those four columns are empty and are realigned on the cash flow's periods.
   */
  lemma PerShareNeverMissing(bs: Table, cf: Table, l: string, p: int)
    requires Valid(bs) && Valid(cf) && PerShare(bs, cf).Success?
    requires l in PerShare(bs, cf).value.rows && p in PerShare(bs, cf).value.rows[l]
    ensures PerShare(bs, cf).value.rows[l][p].Missing? <==> bs.periods == [] && l in PerShareColumns[..4]
  {
    var k :| 0 <= k < |PerShareColumns| && PerShareColumns[k] == l;
    ColumnsDistinct();
    assert l in PerShareColumns[..4] <==> k < 4;
    if bs.periods == [] {
      PerShareWithoutPeriods(bs, cf, k, p);
    } else {
      PerShareCell(bs, cf, k, p);
    }
  }

  /**
   * On a balance sheet with rows but no periods the per-share table runs over
   * the cash flow's periods: the four balance-sheet figures are NaN and the
   * five cash-flow ones 0, their quotients over a NaN share count filled.
   */
  lemma PerShareWithoutPeriods(bs: Table, cf: Table, k: nat, p: int)
    requires Valid(bs) && Valid(cf) && bs.periods == [] && PerShare(bs, cf).Success?
    requires k < |PerShareColumns| && p in cf.periods
    ensures var t := PerShare(bs, cf).value;
      && t.periods == cf.periods && PerShareColumns[k] in t.rows
      && t.rows[PerShareColumns[k]][p] == if k < 4 then Missing else Num(0.0)
  {
    ColumnsDistinct();
    assert FirstStatementLeads(PerShareLookups, true);
    PerShareReadsCashFlow(k);
    MetricCell(bs, cf, PerShareLookups, PerShareColumns, true, QuotientOrZero, k, p);
    var shares := Resolve(bs, cf, DenominatorLookup(PerShareLookups, true));
    assert p !in shares;
  }

  /** Multiplying a per-share figure back by a non-zero share count gives the row's figure. */
  lemma PerShareRoundTrip(bs: Table, cf: Table, k: nat, p: int)
    requires Valid(bs) && Valid(cf) && PerShare(bs, cf).Success? && k < |PerShareColumns| && p in bs.periods
    requires SharesOutstanding in bs.rows && bs.rows[SharesOutstanding][p].Num?
    requires bs.rows[SharesOutstanding][p].v != 0.0
    requires Resolves(bs, cf, PerShareLookups[k + 1]) && !At(Resolve(bs, cf, PerShareLookups[k + 1]), p).Missing?
    ensures Mul(PerShare(bs, cf).value.rows[PerShareColumns[k]][p], bs.rows[SharesOutstanding][p]) ==
      At(Resolve(bs, cf, PerShareLookups[k + 1]), p)
  {
    PerShareCell(bs, cf, k, p);
    DivMulRoundTrip(At(Resolve(bs, cf, PerShareLookups[k + 1]), p), bs.rows[SharesOutstanding][p].v);
  }

  /** With no shares outstanding a non-zero figure per share is infinite and a zero one is 0. */
  lemma PerShareZeroShares(bs: Table, cf: Table, k: nat, p: int)
    requires Valid(bs) && Valid(cf) && PerShare(bs, cf).Success? && k < |PerShareColumns| && p in bs.periods
    requires SharesOutstanding in bs.rows && bs.rows[SharesOutstanding][p] == Num(0.0)
    requires Resolves(bs, cf, PerShareLookups[k + 1]) && At(Resolve(bs, cf, PerShareLookups[k + 1]), p).Num?
    ensures var c := PerShare(bs, cf).value.rows[PerShareColumns[k]][p];
      if At(Resolve(bs, cf, PerShareLookups[k + 1]), p).v == 0.0 then c == Num(0.0) else c.Inf?
  {
    PerShareCell(bs, cf, k, p);
  }

  /** Cash of 500 over 100 shares is 5 per share. */
  lemma PerShareExample(bs: Table, cf: Table, p: int)
    requires Valid(bs) && Valid(cf) && PerShare(bs, cf).Success? && p in bs.periods
    requires SharesOutstanding in bs.rows && bs.rows[SharesOutstanding][p] == Num(100.0)
    requires CashAndShortTermInvestments in bs.rows && bs.rows[CashAndShortTermInvestments][p] == Num(500.0)
    ensures "cash" in PerShare(bs, cf).value.rows
    ensures PerShare(bs, cf).value.rows["cash"][p] == Num(5.0)
  {
    assert PerShare(bs, cf).value.rows["cash"][p] == QuotientOrZero(Num(500.0), Num(100.0)) by {
      PerShareCell(bs, cf, 0, p);
      assert PerShareLookups[1].name == CashAndShortTermInvestments;
    }
    assert QuotientOrZero(Num(500.0), Num(100.0)) == Num(5.0);
  }

  /**
   * `set_margins` (lines 247-261): gross profit, operating income and net
   * income over revenue, times 100, with no fill, over the income statement's
   * periods; or the KeyError of the first row read that is absent.
   */
  function Margins(income: Table): (r: Result<Table, Error>)
    requires Valid(income)
    ensures r.Success? <==> forall k :: 0 <= k < |MarginLookups| ==> MarginLookups[k].name in income.rows
    ensures r.Failure? ==> r.error == MissingRow(MarginLookups[FirstUnresolved(income, income, MarginLookups)].name)
    ensures r.Success? ==>
      Valid(r.value) && r.value.index == MarginColumns && r.value.periods == income.periods
  {
    ColumnsDistinct();
    Metric(income, income, MarginLookups, MarginColumns, true, PercentOf)
  }

  /** The k-th margin: the k-th row read after the revenue, over the revenue, as a percentage. */
  lemma MarginCell(income: Table, k: nat, p: int)
    requires Valid(income) && Margins(income).Success? && k < |MarginColumns| && p in income.periods
    ensures TotalRevenue in income.rows && MarginLookups[k + 1].name in income.rows
    ensures var t := Margins(income).value;
      && MarginColumns[k] in t.rows && p in t.rows[MarginColumns[k]]
      && t.rows[MarginColumns[k]][p] ==
           PercentOf(income.rows[MarginLookups[k + 1].name][p], income.rows[TotalRevenue][p])
  {
    ColumnsDistinct();
    MetricCell(income, income, MarginLookups, MarginColumns, true, PercentOf, k, p);
  }

  /** A figure between 0 and a positive revenue has a margin between 0 and 100. */
  lemma MarginBounds(income: Table, k: nat, p: int)
    requires Valid(income) && Margins(income).Success? && k < |MarginColumns| && p in income.periods
    requires TotalRevenue in income.rows && income.rows[TotalRevenue][p].Num? && income.rows[TotalRevenue][p].v > 0.0
    requires MarginLookups[k + 1].name in income.rows && income.rows[MarginLookups[k + 1].name][p].Num?
    requires 0.0 <= income.rows[MarginLookups[k + 1].name][p].v <= income.rows[TotalRevenue][p].v
    ensures var c := Margins(income).value.rows[MarginColumns[k]][p];
      c.Num? && 0.0 <= c.v <= 100.0
  {
    MarginCell(income, k, p);
    PercentBounds(income.rows[MarginLookups[k + 1].name][p].v, income.rows[TotalRevenue][p].v);
  }

  /** Without revenue figures every margin is NaN: nothing is filled. */
  lemma MarginsMissingRevenue(income: Table, k: nat, p: int)
    requires Valid(income) && Margins(income).Success? && k < |MarginColumns| && p in income.periods
    requires TotalRevenue in income.rows && income.rows[TotalRevenue][p].Missing?
    ensures Margins(income).value.rows[MarginColumns[k]][p].Missing?
  {
    MarginCell(income, k, p);
  }

  /** A gross profit of 400 on a revenue of 1000 is a gross margin of 40. */
  lemma MarginExample(income: Table, p: int)
    requires Valid(income) && Margins(income).Success? && p in income.periods
    requires TotalRevenue in income.rows && income.rows[TotalRevenue][p] == Num(1000.0)
    requires GrossProfit in income.rows && income.rows[GrossProfit][p] == Num(400.0)
    ensures "gross_margin" in Margins(income).value.rows
    ensures Margins(income).value.rows["gross_margin"][p] == Num(40.0)
  {
    MarginCell(income, 0, p);
    assert 400.0 / 1000.0 * 100.0 == 40.0;
  }

  /**
   * `set_operating_expense_breakdown` (lines 263-279): research and selling
   * expenses over the operating expenses, whose NaN alone are filled with 0,
   * times 100; or the KeyError of the first row read that is absent.
   */
  function OperatingExpenseBreakdown(income: Table): (r: Result<Table, Error>)
    requires Valid(income)
    ensures r.Success? <==>
      forall k :: 0 <= k < |OperatingExpenseLookups| ==> OperatingExpenseLookups[k].name in income.rows
    ensures r.Failure? ==>
      r.error == MissingRow(OperatingExpenseLookups[FirstUnresolved(income, income, OperatingExpenseLookups)].name)
    ensures r.Success? ==>
      Valid(r.value) && r.value.index == OperatingExpenseColumns && r.value.periods == income.periods
  {
    ColumnsDistinct();
    Metric(income, income, OperatingExpenseLookups, OperatingExpenseColumns, false, PercentOfFilled)
  }

  /** The k-th share: the k-th row read over the filled operating expenses, as a percentage. */
  lemma OperatingExpenseCell(income: Table, k: nat, p: int)
    requires Valid(income) && OperatingExpenseBreakdown(income).Success?
    requires k < |OperatingExpenseColumns| && p in income.periods
    ensures OperatingExpenses in income.rows && OperatingExpenseLookups[k].name in income.rows
    ensures var t := OperatingExpenseBreakdown(income).value;
      && OperatingExpenseColumns[k] in t.rows && p in t.rows[OperatingExpenseColumns[k]]
      && t.rows[OperatingExpenseColumns[k]][p] ==
           PercentOfFilled(income.rows[OperatingExpenseLookups[k].name][p], income.rows[OperatingExpenses][p])
  {
    ColumnsDistinct();
    MetricCell(income, income, OperatingExpenseLookups, OperatingExpenseColumns, false, PercentOfFilled, k, p);
  }

  /** When research and selling expenses make up all operating expenses, their shares add up to 100. */
  lemma OperatingExpenseSharesSum(income: Table, p: int)
    requires Valid(income) && OperatingExpenseBreakdown(income).Success? && p in income.periods
    requires ResearchAndDevelopment in income.rows && income.rows[ResearchAndDevelopment][p].Num?
    requires SellingGeneralAndAdministrative in income.rows && income.rows[SellingGeneralAndAdministrative][p].Num?
    requires OperatingExpenses in income.rows && income.rows[OperatingExpenses][p].Num?
    requires income.rows[OperatingExpenses][p].v != 0.0
    requires income.rows[ResearchAndDevelopment][p].v + income.rows[SellingGeneralAndAdministrative][p].v ==
      income.rows[OperatingExpenses][p].v
    ensures var t := OperatingExpenseBreakdown(income).value;
      && "r&d" in t.rows && "sg&a" in t.rows
      && t.rows["r&d"][p].Num? && t.rows["sg&a"][p].Num?
      && t.rows["r&d"][p].v + t.rows["sg&a"][p].v == 100.0
  {
    var t := OperatingExpenseBreakdown(income).value;
    var rd := income.rows[ResearchAndDevelopment][p];
    var sga := income.rows[SellingGeneralAndAdministrative][p];
    var total := income.rows[OperatingExpenses][p];
    assert t.rows["r&d"][p] == PercentOf(rd, total) by {
      OperatingExpenseCell(income, 0, p);
    }
    assert t.rows["sg&a"][p] == PercentOf(sga, total) by {
      OperatingExpenseCell(income, 1, p);
    }
    PercentSum(rd.v, sga.v, total.v, t.rows["r&d"][p].v, t.rows["sg&a"][p].v);
  }

  /**
   * A NaN operating-expense figure is filled with 0, so a non-zero research
   * figure over it is infinite and a zero one is NaN.
   */
  lemma OperatingExpensesMissing(income: Table, p: int)
    requires Valid(income) && OperatingExpenseBreakdown(income).Success? && p in income.periods
    requires OperatingExpenses in income.rows && income.rows[OperatingExpenses][p].Missing?
    requires ResearchAndDevelopment in income.rows && income.rows[ResearchAndDevelopment][p].Num?
    ensures var c := OperatingExpenseBreakdown(income).value.rows["r&d"][p];
      if income.rows[ResearchAndDevelopment][p].v == 0.0 then c.Missing? else c.Inf?
  {
    OperatingExpenseCell(income, 0, p);
  }

  /**
   * `set_yields` (lines 281-311): seven balance-sheet and cash-flow rows over
   * the balance sheet's average market cap, times 100, with no fill, over the
   * balance sheet's periods, or the cash flow's when the balance sheet has
   * none; or the KeyError of the first row read that is absent.
   */
  function Yields(bs: Table, cf: Table): (r: Result<Table, Error>)
    requires Valid(bs) && Valid(cf)
    ensures r.Success? <==> forall k :: 0 <= k < |YieldLookups| ==> Resolves(bs, cf, YieldLookups[k])
    ensures r.Failure? ==> r.error == MissingRow(YieldLookups[FirstUnresolved(bs, cf, YieldLookups)].name)
    ensures r.Success? ==> Valid(r.value) && r.value.index == YieldColumns
    ensures r.Success? ==> r.value.periods == if bs.periods != [] then bs.periods else cf.periods
  {
    ColumnsDistinct();
    assert YieldLookups[3].second;
    Metric(bs, cf, YieldLookups, YieldColumns, false, PercentOf)
  }

  /** The k-th yield: the k-th row read over the average market cap, as a percentage. */
  lemma YieldCell(bs: Table, cf: Table, k: nat, p: int)
    requires Valid(bs) && Valid(cf) && Yields(bs, cf).Success? && k < |YieldColumns| && p in bs.periods
    ensures MarketCapAverage in bs.rows && Resolves(bs, cf, YieldLookups[k])
    ensures var t := Yields(bs, cf).value;
      && YieldColumns[k] in t.rows && p in t.rows[YieldColumns[k]]
      && t.rows[YieldColumns[k]][p] ==
           PercentOf(At(Resolve(bs, cf, YieldLookups[k]), p), bs.rows[MarketCapAverage][p])
  {
    ColumnsDistinct();
    MetricCell(bs, cf, YieldLookups, YieldColumns, false, PercentOf, k, p);
  }

  /** A yield divided by 100 and multiplied by a non-zero market cap is the figure it was computed from. */
  lemma YieldRoundTrip(bs: Table, cf: Table, k: nat, p: int)
    requires Valid(bs) && Valid(cf) && Yields(bs, cf).Success? && k < |YieldColumns| && p in bs.periods
    requires MarketCapAverage in bs.rows && bs.rows[MarketCapAverage][p].Num?
    requires bs.rows[MarketCapAverage][p].v != 0.0
    requires Resolves(bs, cf, YieldLookups[k]) && At(Resolve(bs, cf, YieldLookups[k]), p).Num?
    ensures Mul(Div(Yields(bs, cf).value.rows[YieldColumns[k]][p], Num(100.0)), bs.rows[MarketCapAverage][p]) ==
      At(Resolve(bs, cf, YieldLookups[k]), p)
  {
    YieldCell(bs, cf, k, p);
    PercentRoundTrip(At(Resolve(bs, cf, YieldLookups[k]), p), bs.rows[MarketCapAverage][p]);
  }

  /**
   * On a balance sheet with rows but no periods the yields run over the cash
   * flow's periods, and every one is NaN: the balance-sheet columns are empty
   * and the cash-flow ones are over an absent market cap.
   */
  lemma YieldsWithoutPeriods(bs: Table, cf: Table, k: nat, p: int)
    requires Valid(bs) && Valid(cf) && bs.periods == [] && Yields(bs, cf).Success?
    requires k < |YieldColumns| && p in cf.periods
    ensures var t := Yields(bs, cf).value;
      && t.periods == cf.periods && YieldColumns[k] in t.rows
      && t.rows[YieldColumns[k]][p].Missing?
  {
    ColumnsDistinct();
    MetricCell(bs, cf, YieldLookups, YieldColumns, false, PercentOf, k, p);
  }

  /** A period without an average market cap has no yields: nothing is filled. */
  lemma YieldsMissingMarketCap(bs: Table, cf: Table, k: nat, p: int)
    requires Valid(bs) && Valid(cf) && Yields(bs, cf).Success? && k < |YieldColumns| && p in bs.periods
    requires MarketCapAverage in bs.rows && bs.rows[MarketCapAverage][p].Missing?
    ensures Yields(bs, cf).value.rows[YieldColumns[k]][p].Missing?
  {
    YieldCell(bs, cf, k, p);
  }
}
